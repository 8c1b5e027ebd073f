/** Which spawns crypto_remove_spawns of crypto/algapi.c follows: those on the algorithm
    whose type bits agree with the replacement's, and what is built on their
    instances up to the replacement. */
module SpawnTypes {

  import opened Spawns
  import opened SpawnLinks
  import opened Options

  // ----- the lists that are followed -----

  /** Spawns on algorithm a follow a change of type to t unless their mask differs there. */
  datatype Types = Types(flags: seq<bv32>, mask: seq<bv32>)

  predicate Fits(y: Types, a: nat, t: bv32, s: nat) {
    a < |y.flags| && s < |y.mask| && (y.flags[a] ^ t) & y.mask[s] == 0
  }

  /** The users of a that are taken, and those that stay. */
  function Taken(y: Types, a: nat, t: bv32, l: seq<nat>): (r: seq<nat>)
    ensures forall s: nat :: s in r <==> s in l && Fits(y, a, t, s)
  {
    if l == [] then [] else (if Fits(y, a, t, l[0]) then [l[0]] else []) + Taken(y, a, t, l[1..])
  }

  function Staying(y: Types, a: nat, t: bv32, l: seq<nat>): (r: seq<nat>)
    ensures forall s: nat :: s in r <==> s in l && !Fits(y, a, t, s)
  {
    if l == [] then [] else (if Fits(y, a, t, l[0]) then [] else [l[0]]) + Staying(y, a, t, l[1..])
  }

  lemma {:induction false} TakenNoDup(y: Types, a: nat, t: bv32, l: seq<nat>)
    requires NoDup(l)
    ensures NoDup(Taken(y, a, t, l)) && NoDup(Staying(y, a, t, l))
  {
    if l != [] {
      var rest := l[1..];
      TakenNoDup(y, a, t, rest);
      forall s: nat | s in rest ensures s != l[0] {
        var k :| 0 <= k < |rest| && rest[k] == s;
        assert l[k + 1] == s;
      }
    }
  }

  /** new_type: the flags of the replacement, or of the algorithm itself. */
  function NewType(y: Types, a: nat, n: Option<nat>): bv32
    requires a < |y.flags| && (n.Some? ==> n.value < |y.flags|)
  {
    if n.Some? then y.flags[n.value] else y.flags[a]
  }

  /** The part of the graph the walk follows: of a's users those that fit, and
      nothing that sits on the replacement. */
  function Followed(g: Graph, y: Types, a: nat, n: Option<nat>): Graph
    requires a < |g.users| == |y.flags| && (n.Some? ==> n.value < |g.users|)
  {
    var users := g.users[a := Taken(y, a, NewType(y, a, n), g.users[a])];
    Graph(g.inst, if n.Some? then users[n.value := []] else users)
  }

  lemma {:induction false} FollowedOk(g: Graph, y: Types, a: nat, n: Option<nat>, h: Graph)
    requires a < |g.users| == |y.flags| && (n.Some? ==> n.value < |g.users| && n.value != a)
    requires g.Ok() && OneList(g) && h == Followed(g, y, a, n)
    ensures h.inst == g.inst && |h.users| == |g.users| && OneList(h) && h.Ok()
    ensures forall b: nat, s: nat :: b < |h.users| && s in h.users[b] ==> s in g.users[b]
  {
    TakenNoDup(y, a, NewType(y, a, n), g.users[a]);
    forall b: nat | b < |h.users| ensures NoDup(h.users[b]) && h.ListOk(h.users[b]) {
      assert NoDup(g.users[b]) && g.ListOk(g.users[b]);
      forall k | 0 <= k < |h.users[b]| ensures h.users[b][k] < |h.inst| {
        assert h.users[b][k] in g.users[b];
      }
    }
  }

  /** Without a replacement everything is followed. */
  lemma {:induction false} FollowedAll(g: Graph, y: Types, a: nat)
    requires a < |g.users| == |y.flags| && |y.mask| == |g.inst| && g.Ok()
    ensures Followed(g, y, a, None) == g
  {
    assert g.ListOk(g.users[a]);
    TakenAll(y, a, g.users[a]);
  }

  lemma {:induction false} TakenAll(y: Types, a: nat, l: seq<nat>)
    requires a < |y.flags| && forall k :: 0 <= k < |l| ==> l[k] < |y.mask|
    ensures Taken(y, a, y.flags[a], l) == l
  {
    if l != [] {
      SameType(y.flags[a], y.mask[l[0]]);
      TakenAll(y, a, l[1..]);
    }
  }

  lemma {:induction false} SameType(f: bv32, m: bv32)
    ensures (f ^ f) & m == 0
  {
  }

  lemma {:induction false} FewerPaths(g: Graph, h: Graph, x: nat, p: seq<nat>)
    requires h.inst == g.inst && |h.users| == |g.users| && IsPath(h, x, p)
    requires forall b: nat, s: nat :: b < |h.users| && s in h.users[b] ==> s in g.users[b]
    ensures IsPath(g, x, p) && PathEnd(g, x, p) == PathEnd(h, x, p)
    decreases |p|
  {
    if p != [] { FewerPaths(g, h, g.inst[p[0]], p[1..]); }
  }

  lemma {:induction false} StillAcyclic(g: Graph, h: Graph)
    requires h.inst == g.inst && |h.users| == |g.users| && Acyclic(g)
    requires forall b: nat, s: nat :: b < |h.users| && s in h.users[b] ==> s in g.users[b]
    ensures Acyclic(h)
  {
    forall x: nat ensures !BuiltOn(h, x, x) {
      assert !BuiltOn(g, x, x);
      forall p | p != [] && IsPath(h, x, p) ensures PathEnd(h, x, p) != x { FewerPaths(g, h, x, p); }
    }
  }

  // ----- by chains of spawns -----

  /** The flags of a and of the replacement differ in bits that spawn s asks for. */
  predicate Differs(y: Types, a: nat, n: Option<nat>, s: nat) {
    && n.Some? && a < |y.flags| && n.value < |y.flags| && s < |y.mask|
    && (y.flags[a] ^ y.flags[n.value]) & y.mask[s] != 0
  }

  /** The chain goes on through no instance but the last that is the replacement. */
  ghost predicate Avoids(g: Graph, p: seq<nat>, n: Option<nat>) {
    forall i :: 0 <= i < |p| - 1 && p[i] < |g.inst| ==> n != Some(g.inst[p[i]])
  }

  /** A chain of spawns from a leads to x, the first of them with the right bits, and
      does not go on through the replacement. */
  ghost predicate Struck(g: Graph, y: Types, a: nat, n: Option<nat>, x: nat) {
    exists p :: p != [] && IsPath(g, a, p) && PathEnd(g, a, p) == x && !Differs(y, a, n, p[0]) && Avoids(g, p, n)
  }

  /** The replacement is neither x nor built on it. */
  ghost predicate Apart(g: Graph, n: Option<nat>, x: nat) { n.Some? ==> n.value != x && !BuiltOn(g, n.value, x) }

  lemma {:induction false} AvoidsTail(g: Graph, p: seq<nat>, n: Option<nat>)
    requires p != [] && p[0] < |g.inst|
    ensures Avoids(g, p, n) <==> Avoids(g, p[1..], n) && (|p| > 1 ==> n != Some(g.inst[p[0]]))
  {
    if Avoids(g, p, n) {
      forall i | 0 <= i < |p[1..]| - 1 && p[1..][i] < |g.inst| ensures n != Some(g.inst[p[1..][i]]) {
        assert p[1..][i] == p[i + 1];
      }
    }
    if Avoids(g, p[1..], n) && (|p| > 1 ==> n != Some(g.inst[p[0]])) {
      forall i | 0 <= i < |p| - 1 && p[i] < |g.inst| ensures n != Some(g.inst[p[i]]) {
        if i > 0 { assert p[1..][i - 1] == p[i]; }
      }
    }
  }

  lemma {:induction false} FitsSame(y: Types, a: nat, s: nat)
    requires a < |y.flags| && s < |y.mask|
    ensures Fits(y, a, y.flags[a], s)
  {
    SameType(y.flags[a], y.mask[s]);
  }

  lemma {:induction false} FitsNew(y: Types, a: nat, b: nat, s: nat)
    requires a < |y.flags| && b < |y.flags| && s < |y.mask|
    ensures Fits(y, a, y.flags[b], s) ==> !Differs(y, a, Some(b), s)
  {
  }

  lemma {:induction false} DiffersNew(y: Types, a: nat, b: nat, s: nat)
    requires a < |y.flags| && b < |y.flags| && s < |y.mask|
    ensures !Fits(y, a, y.flags[b], s) ==> Differs(y, a, Some(b), s)
  {
  }

  lemma {:induction false} FitsIs(y: Types, a: nat, n: Option<nat>, s: nat, t: bv32)
    requires a < |y.flags| && (n.Some? ==> n.value < |y.flags|) && s < |y.mask| && t == NewType(y, a, n)
    ensures Fits(y, a, t, s) == !Differs(y, a, n, s)
  {
    if n.None? {
      FitsSame(y, a, s);
    } else {
      FitsNew(y, a, n.value, s);
      DiffersNew(y, a, n.value, s);
    }
  }

  lemma {:induction false} TakenIs(y: Types, a: nat, n: Option<nat>, l: seq<nat>, s: nat)
    requires a < |y.flags| && (n.Some? ==> n.value < |y.flags|) && s < |y.mask|
    ensures s in Taken(y, a, NewType(y, a, n), l) <==> s in l && !Differs(y, a, n, s)
  {
    var t := NewType(y, a, n);
    FitsIs(y, a, n, s, t);
    var fits := Fits(y, a, t, s);
    assert s in Taken(y, a, t, l) <==> s in l && fits;
  }

  /** A chain on the lists that are followed avoids the replacement. */
  lemma {:induction false} FollowedAvoids(g: Graph, y: Types, a: nat, n: Option<nat>, h: Graph, b: nat, p: seq<nat>)
    requires a < |g.users| == |y.flags| && (n.Some? ==> n.value < |g.users|) && h == Followed(g, y, a, n)
    requires IsPath(h, b, p)
    ensures Avoids(g, p, n) && (p != [] ==> n != Some(b))
    decreases |p|
  {
    if p != [] {
      FollowedAvoids(g, y, a, n, h, g.inst[p[0]], p[1..]);
      AvoidsTail(g, p, n);
    }
  }

  /** A chain that avoids it, from something built on a, is on those lists. */
  lemma {:induction false} AvoidsFollowed(g: Graph, y: Types, a: nat, n: Option<nat>, h: Graph, b: nat, p: seq<nat>)
    requires a < |g.users| == |y.flags| && |y.mask| == |g.inst| && (n.Some? ==> n.value < |g.users| && n.value != a)
    requires g.Ok() && Acyclic(g) && h == Followed(g, y, a, n) && (b == a || BuiltOn(g, b, a))
    requires IsPath(g, b, p) && Avoids(g, p, n) && (p != [] ==> n != Some(b) && (b == a ==> !Differs(y, a, n, p[0])))
    ensures IsPath(h, b, p) && PathEnd(h, b, p) == PathEnd(g, b, p)
    decreases |p|
  {
    if p != [] {
      var c := g.inst[p[0]];
      BuiltStep(g, a, b, p[0]);
      assert c != a by { assert !BuiltOn(g, a, a); }
      AvoidsTail(g, p, n);
      TakenIs(y, a, n, g.users[a], p[0]);
      AvoidsFollowed(g, y, a, n, h, c, p[1..]);
    }
  }

  /** What is built on a along the lists followed is what such a chain leads to. */
  lemma {:induction false} StruckExactly(g: Graph, y: Types, a: nat, n: Option<nat>, h: Graph, x: nat)
    requires a < |g.users| == |y.flags| && |y.mask| == |g.inst| && (n.Some? ==> n.value < |g.users| && n.value != a)
    requires g.Ok() && OneList(g) && Acyclic(g) && h == Followed(g, y, a, n)
    ensures BuiltOn(h, x, a) <==> Struck(g, y, a, n, x)
  {
    FollowedOk(g, y, a, n, h);
    if BuiltOn(h, x, a) {
      var p :| p != [] && IsPath(h, a, p) && PathEnd(h, a, p) == x;
      FewerPaths(g, h, a, p);
      FollowedAvoids(g, y, a, n, h, a, p);
      TakenIs(y, a, n, g.users[a], p[0]);
    }
    if Struck(g, y, a, n, x) {
      var p :| p != [] && IsPath(g, a, p) && PathEnd(g, a, p) == x && !Differs(y, a, n, p[0]) && Avoids(g, p, n);
      AvoidsFollowed(g, y, a, n, h, a, p);
    }
  }

  lemma {:induction false} ApartFollowed(g: Graph, h: Graph, n: nat, x: nat)
    requires h.inst == g.inst && |h.users| == |g.users| && !BuiltOn(g, n, x)
    requires forall b: nat, s: nat :: b < |h.users| && s in h.users[b] ==> s in g.users[b]
    ensures !BuiltOn(h, n, x)
  {
    forall p | p != [] && IsPath(h, x, p) ensures PathEnd(h, x, p) != n { FewerPaths(g, h, x, p); }
  }

  /** Who dies: nothing but what such a chain leads to, never the replacement, and all of
      it that the replacement is not built on. */
  lemma {:induction false} WhoDies(g: Graph, y: Types, a: nat, n: Option<nat>, h: Graph, l: Lists,
                                   link: seq<Option<nat>>)
    requires a < |g.users| == |y.flags| && |y.mask| == |g.inst| && (n.Some? ==> n.value < |g.users| && n.value != a)
    requires g.Ok() && OneList(g) && Acyclic(g) && h == Followed(g, y, a, n) && Walked(h, a, n, l, link)
    ensures forall x: nat :: Killed(h, l.second, link, x) ==> n != Some(x) && Struck(g, y, a, n, x)
    ensures forall x: nat :: Struck(g, y, a, n, x) && Apart(g, n, x) ==> Killed(h, l.second, link, x)
  {
    FollowedOk(g, y, a, n, h);
    forall x: nat
      ensures Killed(h, l.second, link, x) ==> n != Some(x) && Struck(g, y, a, n, x)
      ensures Struck(g, y, a, n, x) && Apart(g, n, x) ==> Killed(h, l.second, link, x)
    {
      StruckExactly(g, y, a, n, h, x);
      if n.None? {
        AllDie(h, a, l, link, x);
      } else {
        OthersDie(h, a, n.value, l, link, x);
        if Apart(g, n, x) { ApartFollowed(g, h, n.value, x); }
      }
    }
  }
}
