/** The graph of crypto algorithms, instances and spawns (crypto/algapi.c), what is
    built on what, and the lists that crypto_remove_spawns moves spawns between. */
module Spawns {

  import opened ListOps

  /** Algorithms and spawns are numbers. `inst[s]` is the instance that owns spawn
      s; `users[a]` is the list of spawns that sit on algorithm a. */
  datatype Graph = Graph(inst: seq<nat>, users: seq<seq<nat>>) {
    ghost predicate Ok() {
      && (forall s :: 0 <= s < |inst| ==> inst[s] < |users|)
      && (forall a :: 0 <= a < |users| ==> ListOk(users[a]))
    }
    ghost predicate ListOk(l: seq<nat>) { forall k :: 0 <= k < |l| ==> l[k] < |inst| }
  }

  /** A chain of spawns, each on the instance that owns the one before, starting on a. */
  predicate IsPath(g: Graph, a: nat, p: seq<nat>)
    decreases |p|
  {
    p == [] || (a < |g.users| && p[0] in g.users[a] && p[0] < |g.inst| && IsPath(g, g.inst[p[0]], p[1..]))
  }

  function PathEnd(g: Graph, a: nat, p: seq<nat>): nat
    requires IsPath(g, a, p)
    decreases |p|
  {
    if p == [] then a else PathEnd(g, g.inst[p[0]], p[1..])
  }

  /** x is built, directly or not, on a. */
  ghost predicate BuiltOn(g: Graph, x: nat, a: nat) {
    exists p :: p != [] && IsPath(g, a, p) && PathEnd(g, a, p) == x
  }

  lemma {:induction false} PathSnoc(g: Graph, a: nat, p: seq<nat>, s: nat)
    requires IsPath(g, a, p) && PathEnd(g, a, p) < |g.users| && s in g.users[PathEnd(g, a, p)] && s < |g.inst|
    ensures IsPath(g, a, p + [s]) && PathEnd(g, a, p + [s]) == g.inst[s]
    decreases |p|
  {
    if p == [] {
      assert (p + [s])[1..] == [];
    } else {
      assert (p + [s])[1..] == p[1..] + [s];
      PathSnoc(g, g.inst[p[0]], p[1..], s);
    }
  }

  /** What sits on something built on a, or on a itself, is built on a. */
  lemma {:induction false} BuiltStep(g: Graph, a: nat, b: nat, s: nat)
    requires b == a || BuiltOn(g, b, a)
    requires b < |g.users| && s in g.users[b] && s < |g.inst|
    ensures BuiltOn(g, g.inst[s], a)
  {
    var p: seq<nat> := [];
    if b != a { p :| p != [] && IsPath(g, a, p) && PathEnd(g, a, p) == b; }
    PathSnoc(g, a, p, s);
    assert p + [s] != [];
  }

  /** A set of spawns that holds all of a's and, with each spawn, all that sit on
      its instance reaches everything built on a. */
  ghost predicate Closed(g: Graph, a: nat, seen: set<nat>) {
    && a < |g.users| && (forall s :: s in g.users[a] ==> s in seen)
    && (forall t, s :: t in seen && t < |g.inst| && g.inst[t] < |g.users| && s in g.users[g.inst[t]] ==> s in seen)
  }

  lemma {:induction false} ClosedReaches(g: Graph, a: nat, seen: set<nat>, b: nat, p: seq<nat>)
    requires Closed(g, a, seen) && p != [] && IsPath(g, b, p)
    requires b == a || exists t :: t in seen && t < |g.inst| && g.inst[t] == b
    ensures exists t :: t in seen && t < |g.inst| && g.inst[t] == PathEnd(g, b, p)
    decreases |p|
  {
    assert p[0] in seen;
    if p[1..] == [] {
      assert PathEnd(g, b, p) == g.inst[p[0]];
    } else {
      ClosedReaches(g, a, seen, g.inst[p[0]], p[1..]);
    }
  }

  /** Spawn s sits on a or on something built on a. */
  ghost predicate Affected(g: Graph, s: nat, a: nat) {
    exists b: nat :: (b == a || BuiltOn(g, b, a)) && b < |g.users| && s in g.users[b]
  }

  function Total(l: seq<seq<nat>>): nat {
    if l == [] then 0 else |l[0]| + Total(l[1..])
  }

  lemma {:induction false} TotalAt(l: seq<seq<nat>>, i: nat, x: seq<nat>)
    requires i < |l|
    ensures Total(l[i := x]) == Total(l) - |l[i]| + |x|
  {
    if i == 0 {
      assert l[i := x][1..] == l[1..];
    } else {
      assert l[i := x][1..] == l[1..][i - 1 := x];
      TotalAt(l[1..], i - 1, x);
    }
  }

  /** The local lists of the walk: `users` holds what is left on the instances,
      `top` what is left of the algorithm's own users. */
  datatype Lists = Lists(users: seq<seq<nat>>, top: seq<nat>, stack: seq<nat>, second: seq<nat>) {
    predicate Seen(s: nat) { s in stack || s in second }
  }

  /** The list of b has only lost spawns that were seen, and only if b is affected. */
  ghost predicate LeftAt(g: Graph, a: nat, l: Lists, b: nat)
    requires b < |g.users| == |l.users|
  {
    && (forall s: nat :: s in l.users[b] ==> s in g.users[b])
    && (forall s: nat :: s in g.users[b] ==> b == a || s in l.users[b] || l.Seen(s))
    && (l.users[b] == g.users[b] || b == a || BuiltOn(g, b, a))
  }

  ghost predicate TopOk(g: Graph, a: nat, l: Lists) {
    && a < |g.users| == |l.users| && l.users[a] == []
    && (forall s: nat :: s in l.top ==> s in g.users[a])
    && (forall s: nat :: s in g.users[a] ==> s in l.top || l.Seen(s))
  }

  ghost predicate LeftOk(g: Graph, a: nat, l: Lists) {
    TopOk(g, a, l) && forall b: nat :: b < |g.users| ==> LeftAt(g, a, l, b)
  }

  ghost predicate SeenAt(g: Graph, a: nat, l: Lists, s: nat) {
    && s < |g.inst| && g.inst[s] < |l.users| && g.inst[s] != a
    && BuiltOn(g, g.inst[s], a) && Affected(g, s, a)
    && (s in l.second ==> l.users[g.inst[s]] == [])
  }

  ghost predicate SeenOk(g: Graph, a: nat, l: Lists) {
    forall s: nat :: l.Seen(s) ==> SeenAt(g, a, l, s)
  }

  ghost predicate Walking(g: Graph, a: nat, l: Lists) {
    LeftOk(g, a, l) && SeenOk(g, a, l)
  }

  /** What is left on the list the walk stands on. */
  function Left(g: Graph, l: Lists): seq<nat> {
    if l.stack == [] then l.top
    else if l.stack[0] < |g.inst| && g.inst[l.stack[0]] < |l.users| then l.users[g.inst[l.stack[0]]] else []
  }

  /** The first spawn of the list the walk stands on moves to the stack. */
  function Push(g: Graph, l: Lists): Lists
    requires Left(g, l) != []
  {
    if l.stack == [] then l.(top := l.top[1..], stack := [l.top[0]])
    else var b := g.inst[l.stack[0]];
         l.(users := l.users[b := l.users[b][1..]], stack := [l.users[b][0]] + l.stack)
  }

  function Pop(l: Lists): Lists
    requires l.stack != []
  {
    l.(stack := l.stack[1..], second := [l.stack[0]] + l.second)
  }

  function Weight(l: Lists): nat { Total(l.users) + |l.top| }

  lemma {:induction false} PushFrom(g: Graph, a: nat, l: Lists) returns (b: nat)
    requires g.Ok() && Walking(g, a, l) && Left(g, l) != []
    ensures (b == a || BuiltOn(g, b, a)) && b < |g.users| && Left(g, l)[0] in g.users[b]
    ensures Left(g, l)[0] < |g.inst| && BuiltOn(g, g.inst[Left(g, l)[0]], a) && Affected(g, Left(g, l)[0], a)
  {
    b := if l.stack == [] then a else g.inst[l.stack[0]];
    if l.stack != [] {
      assert l.Seen(l.stack[0]) && SeenAt(g, a, l, l.stack[0]);
      assert LeftAt(g, a, l, b);
    }
    assert Left(g, l)[0] in g.users[b];
    assert g.ListOk(g.users[b]);
    BuiltStep(g, a, b, Left(g, l)[0]);
  }

  lemma {:induction false} PushSeen(g: Graph, l: Lists, m: Lists)
    requires Left(g, l) != [] && m == Push(g, l)
    ensures forall s: nat :: m.Seen(s) <==> l.Seen(s) || s == Left(g, l)[0]
    ensures Weight(m) < Weight(l)
  {
    if l.stack != [] {
      var b := g.inst[l.stack[0]];
      TotalAt(l.users, b, l.users[b][1..]);
    }
  }

  lemma {:induction false} PushLeftAt(g: Graph, a: nat, l: Lists, m: Lists, b: nat)
    requires g.Ok() && Walking(g, a, l) && Left(g, l) != [] && m == Push(g, l) && b < |g.users|
    requires forall s: nat :: m.Seen(s) <==> l.Seen(s) || s == Left(g, l)[0]
    ensures LeftAt(g, a, m, b)
  {
    assert LeftAt(g, a, l, b);
    if l.stack != [] {
      assert l.Seen(l.stack[0]) && SeenAt(g, a, l, l.stack[0]);
      if b == g.inst[l.stack[0]] {
        assert l.users[b] == [l.users[b][0]] + l.users[b][1..];
      }
    }
  }

  lemma {:induction false} PushTop(g: Graph, a: nat, l: Lists, m: Lists)
    requires g.Ok() && Walking(g, a, l) && Left(g, l) != [] && m == Push(g, l)
    requires forall s: nat :: m.Seen(s) <==> l.Seen(s) || s == Left(g, l)[0]
    ensures TopOk(g, a, m)
  {
    if l.stack == [] {
      assert l.top == [l.top[0]] + l.top[1..];
    } else {
      assert l.Seen(l.stack[0]) && SeenAt(g, a, l, l.stack[0]);
    }
  }

  lemma {:induction false} PushSeenAt(g: Graph, a: nat, l: Lists, m: Lists, s: nat)
    requires g.Ok() && Walking(g, a, l) && Left(g, l) != [] && m == Push(g, l)
    requires l.Seen(s)
    ensures m.second == l.second && SeenAt(g, a, m, s)
  {
    assert SeenAt(g, a, l, s);
  }

  lemma {:induction false} PushKeeps(g: Graph, a: nat, l: Lists, m: Lists)
    requires g.Ok() && Walking(g, a, l) && Left(g, l) != [] && m == Push(g, l)
    requires Left(g, l)[0] < |g.inst| && g.inst[Left(g, l)[0]] != a
    ensures Walking(g, a, m) && Weight(m) < Weight(l)
  {
    PushSeen(g, l, m);
    PushTop(g, a, l, m);
    forall b: nat | b < |g.users| ensures LeftAt(g, a, m, b) { PushLeftAt(g, a, l, m, b); }
    forall s: nat | m.Seen(s) ensures SeenAt(g, a, m, s) {
      if l.Seen(s) {
        PushSeenAt(g, a, l, m, s);
      } else {
        var b := PushFrom(g, a, l);
      }
    }
  }

  lemma {:induction false} PopKeeps(g: Graph, a: nat, l: Lists, m: Lists)
    requires Walking(g, a, l) && l.stack != [] && Left(g, l) == [] && m == Pop(l)
    ensures Walking(g, a, m)
  {
    assert l.stack == [l.stack[0]] + l.stack[1..];
    assert forall s: nat :: m.Seen(s) <==> l.Seen(s);
    forall b: nat | b < |g.users| ensures LeftAt(g, a, m, b) { assert LeftAt(g, a, l, b); }
    forall s: nat | m.Seen(s) ensures SeenAt(g, a, m, s) { assert SeenAt(g, a, l, s); }
  }

  lemma {:induction false} StartWalk(g: Graph, a: nat, l: Lists)
    requires g.Ok() && a < |g.users|
    requires l == Lists(g.users[a := []], Reversed(g.users[a]), [], [])
    ensures Walking(g, a, l)
  {
  }

  /** Once the walk has stopped, the spawns it took are closed under "sits on". */
  lemma {:induction false} DoneClosed(g: Graph, a: nat, l: Lists, seen: set<nat>)
    requires Walking(g, a, l) && l.stack == [] && l.top == [] && seen == set s | s in l.second
    ensures Closed(g, a, seen)
  {
    forall t, s | t in seen && t < |g.inst| && g.inst[t] < |g.users| && s in g.users[g.inst[t]]
      ensures s in seen
    {
      assert l.Seen(t) && SeenAt(g, a, l, t);
      assert LeftAt(g, a, l, g.inst[t]);
      assert l.Seen(s);
    }
    forall s | s in g.users[a] ensures s in seen { assert l.Seen(s); }
  }

  /** The walk took a spawn of exactly the instances built on the algorithm. */
  lemma {:induction false} WalkFinds(g: Graph, a: nat, l: Lists, x: nat)
    requires Walking(g, a, l) && l.stack == [] && l.top == []
    ensures BuiltOn(g, x, a) <==> exists s :: s in l.second && s < |g.inst| && g.inst[s] == x
    ensures BuiltOn(g, x, a) ==> x != a
  {
    var seen := set s | s in l.second;
    DoneClosed(g, a, l, seen);
    if BuiltOn(g, x, a) {
      var p :| p != [] && IsPath(g, a, p) && PathEnd(g, a, p) == x;
      ClosedReaches(g, a, seen, a, p);
      var t :| t in seen && t < |g.inst| && g.inst[t] == x;
      assert t in l.second && l.Seen(t) && SeenAt(g, a, l, t);
    } else {
      forall s | s in l.second && s < |g.inst| ensures g.inst[s] != x {
        assert l.Seen(s) && SeenAt(g, a, l, s);
      }
    }
  }

  lemma {:induction false} WalkEmpties(g: Graph, a: nat, l: Lists, b: nat)
    requires Walking(g, a, l) && l.stack == [] && l.top == [] && b < |l.users|
    ensures l.users[b] == if b == a || BuiltOn(g, b, a) then [] else g.users[b]
  {
    WalkFinds(g, a, l, b);
    assert LeftAt(g, a, l, b);
    if BuiltOn(g, b, a) {
      var s :| s in l.second && s < |g.inst| && g.inst[s] == b;
      assert l.Seen(s) && SeenAt(g, a, l, s);
    }
  }

  /** The walk took exactly the spawns that sit on the algorithm or on something built on it. */
  lemma {:induction false} WalkTakes(g: Graph, a: nat, l: Lists, s: nat)
    requires Walking(g, a, l) && l.stack == [] && l.top == []
    ensures s in l.second <==> Affected(g, s, a)
  {
    var seen := set s | s in l.second;
    DoneClosed(g, a, l, seen);
    if Affected(g, s, a) {
      var b: nat :| (b == a || BuiltOn(g, b, a)) && b < |g.users| && s in g.users[b];
      if b != a {
        WalkFinds(g, a, l, b);
        var t :| t in l.second && t < |g.inst| && g.inst[t] == b;
        assert t in seen;
      }
      assert s in seen;
    } else {
      assert l.Seen(s) ==> SeenAt(g, a, l, s);
    }
  }

  /** The lists after algorithm a was removed: those of a and of what is built on it are empty. */
  ghost predicate Removed(g: Graph, a: nat, h: Graph) {
    && h.inst == g.inst && |h.users| == |g.users|
    && forall b: nat, s: nat :: b < |h.users| ==>
         (s in h.users[b] <==> s in g.users[b] && b != a && !BuiltOn(g, b, a))
  }

  /** A path to a survivor does not meet anything that was removed. */
  lemma {:induction false} PathSurvives(g: Graph, a: nat, h: Graph, y: nat, p: seq<nat>)
    requires Removed(g, a, h) && IsPath(g, y, p)
    requires !BuiltOn(g, PathEnd(g, y, p), a) && PathEnd(g, y, p) != a
    ensures y != a && !BuiltOn(g, y, a) && IsPath(h, y, p) && PathEnd(h, y, p) == PathEnd(g, y, p)
    decreases |p|
  {
    if p != [] {
      PathSurvives(g, a, h, g.inst[p[0]], p[1..]);
      if y == a || BuiltOn(g, y, a) {
        BuiltStep(g, a, y, p[0]);
        assert false;
      }
    }
  }

  lemma {:induction false} PathWasThere(g: Graph, a: nat, h: Graph, y: nat, p: seq<nat>)
    requires Removed(g, a, h) && IsPath(h, y, p)
    ensures IsPath(g, y, p) && PathEnd(h, y, p) == PathEnd(g, y, p)
    decreases |p|
  {
    if p != [] {
      PathWasThere(g, a, h, g.inst[p[0]], p[1..]);
    }
  }

  /** A survivor is built on exactly what it was built on before. */
  lemma {:induction false} SurvivorsKeep(g: Graph, a: nat, h: Graph, x: nat, y: nat)
    requires Removed(g, a, h) && x != a && !BuiltOn(g, x, a)
    ensures BuiltOn(h, x, y) <==> BuiltOn(g, x, y)
    ensures BuiltOn(g, x, y) ==> y != a && !BuiltOn(g, y, a)
  {
    if BuiltOn(g, x, y) {
      var p :| p != [] && IsPath(g, y, p) && PathEnd(g, y, p) == x;
      PathSurvives(g, a, h, y, p);
    }
    if BuiltOn(h, x, y) {
      var p :| p != [] && IsPath(h, y, p) && PathEnd(h, y, p) == x;
      PathWasThere(g, a, h, y, p);
    }
  }
}
