/** What crypto_remove_spawns does to the links of the spawns it takes: those on a
    way to the replacement algorithm are put back, the others are cut. */
module SpawnLinks {

  import opened Spawns
  import opened Options
  import opened ListOps

  ghost predicate NoDup(l: seq<nat>) { forall i, j :: 0 <= i < j < |l| ==> l[i] != l[j] }

  /** A spawn is on one list, once. */
  ghost predicate OneList(g: Graph) {
    && (forall b: nat, c: nat, s: nat :: b < |g.users| && c < |g.users| && s in g.users[b] && s in g.users[c] ==>
      b == c)
    && (forall b: nat :: b < |g.users| ==> NoDup(g.users[b]))
  }

  ghost predicate Acyclic(g: Graph) { forall x: nat :: !BuiltOn(g, x, x) }

  // ----- the links -----

  /** The algorithm under the i-th spawn of the stack. */
  function Under(g: Graph, a: nat, stack: seq<nat>, i: nat): nat {
    if i + 1 < |stack| && stack[i + 1] < |g.inst| then g.inst[stack[i + 1]] else a
  }

  ghost predicate ChainAt(g: Graph, a: nat, stack: seq<nat>, i: nat)
    requires i < |stack|
  {
    Under(g, a, stack, i) < |g.users| && stack[i] in g.users[Under(g, a, stack, i)]
  }

  /** Each spawn of the stack sits on the instance of the one below it. */
  ghost predicate Chain(g: Graph, a: nat, stack: seq<nat>) {
    forall i: nat :: i < |stack| ==> ChainAt(g, a, stack, i)
  }

  ghost predicate WaitsAt(l: Lists, b: nat)
    requires b < |l.users|
  {
    NoDup(l.users[b]) && forall s: nat :: s in l.users[b] ==> !l.Seen(s)
  }

  /** What is left on the lists was not seen. */
  ghost predicate Waiting(l: Lists) {
    && (forall b: nat :: b < |l.users| ==> WaitsAt(l, b))
    && NoDup(l.top) && (forall s: nat :: s in l.top ==> !l.Seen(s))
  }

  /** A spawn points at its algorithm unless it was seen and is cut. */
  ghost predicate LinkAt(g: Graph, l: Lists, link: seq<Option<nat>>, b: nat, s: nat) {
    s < |link| && (link[s] == Some(b) || (l.Seen(s) && link[s] == None))
  }

  ghost predicate Linked(g: Graph, l: Lists, link: seq<Option<nat>>) {
    |link| == |g.inst| && forall b: nat, s: nat :: b < |g.users| && s in g.users[b] ==> LinkAt(g, l, link, b, s)
  }

  /** A spawn of the replacement n is never cut, and one that is not cut is on a way to n. */
  ghost predicate KeptAt(g: Graph, n: Option<nat>, link: seq<Option<nat>>, s: nat) {
    && s < |link| && s < |g.inst| && (n == Some(g.inst[s]) ==> link[s].Some?)
    && (link[s].Some? ==> n.Some? && (g.inst[s] == n.value || BuiltOn(g, n.value, g.inst[s])))
  }

  /** Instance b has a spawn, seen and not cut. */
  ghost predicate Held(g: Graph, l: Lists, link: seq<Option<nat>>, b: nat) {
    exists s: nat :: l.Seen(s) && s < |g.inst| && g.inst[s] == b && s < |link| && link[s].Some?
  }

  /** Below a spawn that is done with and not cut, its instance is held. */
  ghost predicate UpAt(g: Graph, a: nat, l: Lists, link: seq<Option<nat>>, t: nat) {
    t < |link| && (link[t].Some? && link[t].value != a ==> Held(g, l, link, link[t].value))
  }

  /** No spawn is on the stack or done with twice, or both. */
  ghost predicate OnceSeen(l: Lists) {
    NoDup(l.stack) && NoDup(l.second) && forall s: nat :: s in l.stack ==> s !in l.second
  }

  ghost predicate Linking(g: Graph, a: nat, n: Option<nat>, l: Lists, link: seq<Option<nat>>) {
    && Chain(g, a, l.stack) && Waiting(l) && OnceSeen(l) && Linked(g, l, link)
    && (forall s: nat :: l.Seen(s) ==> KeptAt(g, n, link, s))
    && (forall t: nat :: t in l.second ==> UpAt(g, a, l, link, t))
  }

  /** The spawn pushed is cut, unless it belongs to the replacement. */
  function PushLink(g: Graph, n: Option<nat>, l: Lists, link: seq<Option<nat>>): seq<Option<nat>>
    requires Left(g, l) != [] && Left(g, l)[0] < |link| && |link| == |g.inst|
  {
    var s := Left(g, l)[0];
    if n == Some(g.inst[s]) then link else link[s := None]
  }

  /** The spawn popped, if it is not cut, puts back the link of the one below. */
  function PopLink(g: Graph, a: nat, l: Lists, link: seq<Option<nat>>): seq<Option<nat>>
    requires l.stack != []
  {
    if |l.stack| > 1 && l.stack[0] < |link| && l.stack[1] < |link| && link[l.stack[0]].Some? && link[l.stack[1]].None?
    then link[l.stack[1] := Some(Under(g, a, l.stack, 1))] else link
  }

  lemma {:induction false} PushChain(g: Graph, a: nat, l: Lists, m: Lists)
    requires g.Ok() && Walking(g, a, l) && Left(g, l) != [] && m == Push(g, l) && Chain(g, a, l.stack)
    ensures Chain(g, a, m.stack)
  {
    var b := PushFrom(g, a, l);
    if l.stack != [] { assert l.Seen(l.stack[0]) && SeenAt(g, a, l, l.stack[0]); }
    forall i: nat | i < |m.stack| ensures ChainAt(g, a, m.stack, i) {
      if i > 0 {
        assert ChainAt(g, a, l.stack, i - 1);
        assert m.stack[i] == l.stack[i - 1];
        assert Under(g, a, m.stack, i) == Under(g, a, l.stack, i - 1);
      } else {
        PushSource(g, a, l, m);
      }
    }
  }

  /** The spawn pushed comes off the list of what it sits on. */
  lemma {:induction false} PushSource(g: Graph, a: nat, l: Lists, m: Lists)
    requires g.Ok() && Walking(g, a, l) && Left(g, l) != [] && m == Push(g, l)
    ensures m.stack == [Left(g, l)[0]] + l.stack && Under(g, a, m.stack, 0) < |g.users|
    ensures Left(g, l)[0] in g.users[Under(g, a, m.stack, 0)]
  {
    if l.stack != [] {
      assert l.Seen(l.stack[0]) && SeenAt(g, a, l, l.stack[0]);
      assert LeftAt(g, a, l, g.inst[l.stack[0]]);
    }
  }

  lemma {:induction false} PushWaiting(g: Graph, a: nat, l: Lists, m: Lists)
    requires g.Ok() && OneList(g) && Walking(g, a, l) && Left(g, l) != [] && m == Push(g, l) && Waiting(l)
    requires forall s: nat :: m.Seen(s) <==> l.Seen(s) || s == Left(g, l)[0]
    ensures Waiting(m)
  {
    var x := Left(g, l)[0];
    PushSource(g, a, l, m);
    var u := Under(g, a, m.stack, 0);
    forall b: nat | b < |m.users| ensures WaitsAt(m, b) {
      assert WaitsAt(l, b) && LeftAt(g, a, l, b);
      if m.users[b] != l.users[b] {
        assert l.users[b] == [x] + m.users[b];
      } else if x in m.users[b] {
        assert x in g.users[b] && b == u;
      }
    }
    if l.stack == [] { assert l.top == [x] + m.top; }
  }

  /** The spawn about to be pushed is new. */
  lemma {:induction false} PushFresh(g: Graph, a: nat, l: Lists, link: seq<Option<nat>>, x: nat)
    requires g.Ok() && Walking(g, a, l) && Left(g, l) != [] && Waiting(l) && Linked(g, l, link) && x == Left(g, l)[0]
    ensures !l.Seen(x) && x < |link| && link[x].Some?
  {
    var b := PushFrom(g, a, l);
    assert LinkAt(g, l, link, b, x);
    if l.stack != [] { assert WaitsAt(l, g.inst[l.stack[0]]); }
  }

  lemma {:induction false} PushLinked(g: Graph, n: Option<nat>, l: Lists, m: Lists, link: seq<Option<nat>>,
                                      next: seq<Option<nat>>)
    requires Left(g, l) != [] && Linked(g, l, link) && Left(g, l)[0] < |link|
    requires forall s: nat :: m.Seen(s) <==> l.Seen(s) || s == Left(g, l)[0]
    requires next == PushLink(g, n, l, link)
    ensures Linked(g, m, next)
  {
    forall b: nat, s: nat | b < |g.users| && s in g.users[b] ensures LinkAt(g, m, next, b, s) {
      assert LinkAt(g, l, link, b, s);
    }
  }

  lemma {:induction false} HeldStays(g: Graph, l: Lists, m: Lists, link: seq<Option<nat>>, next: seq<Option<nat>>,
                                     b: nat)
    requires Held(g, l, link, b) && |next| == |link|
    requires forall s: nat :: l.Seen(s) && s < |link| && link[s].Some? ==> m.Seen(s) && next[s].Some?
    ensures Held(g, m, next, b)
  {
    var s: nat :| l.Seen(s) && s < |g.inst| && g.inst[s] == b && s < |link| && link[s].Some?;
    assert m.Seen(s) && next[s].Some?;
  }

  lemma {:induction false} PushLinking(g: Graph, a: nat, n: Option<nat>, l: Lists, m: Lists, link: seq<Option<nat>>,
                                       next: seq<Option<nat>>)
    requires g.Ok() && OneList(g) && Walking(g, a, l) && Left(g, l) != [] && m == Push(g, l)
      && Linking(g, a, n, l, link)
    requires Left(g, l)[0] < |link| && next == PushLink(g, n, l, link)
    ensures Linking(g, a, n, m, next)
  {
    var x := Left(g, l)[0];
    PushSeen(g, l, m);
    PushChain(g, a, l, m);
    PushWaiting(g, a, l, m);
    PushLinked(g, n, l, m, link, next);
    PushFresh(g, a, l, link, x);
    PushSource(g, a, l, m);
    assert OnceSeen(m);
    forall s: nat | m.Seen(s) ensures KeptAt(g, n, next, s) { assert l.Seen(s) ==> KeptAt(g, n, link, s); }
    forall t: nat | t in m.second ensures UpAt(g, a, m, next, t) {
      assert m.second == l.second && UpAt(g, a, l, link, t);
      if next[t].Some? && next[t].value != a { HeldStays(g, l, m, link, next, next[t].value); }
    }
  }

  // ----- popping -----

  lemma {:induction false} PopSeen(l: Lists, m: Lists)
    requires l.stack != [] && m == Pop(l)
    ensures forall s: nat :: m.Seen(s) <==> l.Seen(s)
  {
    assert l.stack == [l.stack[0]] + l.stack[1..];
  }

  lemma {:induction false} PopChain(g: Graph, a: nat, stack: seq<nat>)
    requires stack != [] && Chain(g, a, stack)
    ensures Chain(g, a, stack[1..])
  {
    forall i: nat | i < |stack[1..]| ensures ChainAt(g, a, stack[1..], i) {
      assert ChainAt(g, a, stack, i + 1);
      assert Under(g, a, stack[1..], i) == Under(g, a, stack, i + 1);
    }
  }

  lemma {:induction false} PopWaiting(l: Lists, m: Lists)
    requires l.stack != [] && m == Pop(l) && Waiting(l)
    ensures Waiting(m)
  {
    PopSeen(l, m);
    forall b: nat | b < |m.users| ensures WaitsAt(m, b) { assert WaitsAt(l, b); }
  }

  /** Something on a way to n, seen from one spawn lower. */
  lemma {:induction false} WayDown(g: Graph, n: nat, b: nat, s: nat)
    requires b < |g.users| && s in g.users[b] && s < |g.inst| && (g.inst[s] == n || BuiltOn(g, n, g.inst[s]))
    ensures BuiltOn(g, n, b)
  {
    if g.inst[s] == n {
      BuiltStep(g, b, b, s);
    } else {
      var p :| p != [] && IsPath(g, g.inst[s], p) && PathEnd(g, g.inst[s], p) == n;
      assert ([s] + p)[1..] == p && ([s] + p)[0] == s;
      assert IsPath(g, b, [s] + p) && PathEnd(g, b, [s] + p) == n;
    }
  }

  lemma {:induction false} PopLinked(g: Graph, a: nat, l: Lists, m: Lists, link: seq<Option<nat>>,
                                     next: seq<Option<nat>>)
    requires OneList(g) && l.stack != [] && m == Pop(l) && Chain(g, a, l.stack) && Linked(g, l, link)
    requires next == PopLink(g, a, l, link)
    ensures Linked(g, m, next)
  {
    PopSeen(l, m);
    forall b: nat, s: nat | b < |g.users| && s in g.users[b] ensures LinkAt(g, m, next, b, s) {
      assert LinkAt(g, l, link, b, s);
      if |l.stack| > 1 && s == l.stack[1] { assert ChainAt(g, a, l.stack, 1); }
    }
  }

  lemma {:induction false} PopKept(g: Graph, a: nat, n: Option<nat>, l: Lists, link: seq<Option<nat>>,
                                   next: seq<Option<nat>>, s: nat)
    requires Linking(g, a, n, l, link) && l.stack != [] && next == PopLink(g, a, l, link) && l.Seen(s)
    ensures KeptAt(g, n, next, s)
  {
    assert KeptAt(g, n, link, s);
    if next != link && s == l.stack[1] {
      assert l.Seen(l.stack[0]) && KeptAt(g, n, link, l.stack[0]);
      assert ChainAt(g, a, l.stack, 0);
      WayDown(g, n.value, g.inst[s], l.stack[0]);
    }
  }

  /** The instance below a spawn that is popped and not cut is held. */
  lemma {:induction false} TopHeld(g: Graph, a: nat, n: Option<nat>, l: Lists, m: Lists, link: seq<Option<nat>>,
                                   next: seq<Option<nat>>)
    requires Linking(g, a, n, l, link) && l.stack != [] && m == Pop(l) && next == PopLink(g, a, l, link)
    requires l.stack[0] < |link| && link[l.stack[0]].Some? && link[l.stack[0]].value != a
    ensures Held(g, m, next, link[l.stack[0]].value)
  {
    PopSeen(l, m);
    var t := l.stack[0];
    assert ChainAt(g, a, l.stack, 0);
    assert LinkAt(g, l, link, Under(g, a, l.stack, 0), t);
    var p := l.stack[1];
    assert l.Seen(p) && KeptAt(g, n, link, p);
    assert m.Seen(p) && g.inst[p] == link[t].value && next[p].Some?;
  }

  lemma {:induction false} PopUp(g: Graph, a: nat, n: Option<nat>, l: Lists, m: Lists, link: seq<Option<nat>>,
                                 next: seq<Option<nat>>, t: nat)
    requires Linking(g, a, n, l, link) && l.stack != [] && m == Pop(l)
    requires next == PopLink(g, a, l, link) && t in m.second
    ensures UpAt(g, a, m, next, t)
  {
    PopSeen(l, m);
    assert l.Seen(t) && KeptAt(g, n, link, t);
    assert next[t] == link[t] by {
      assert |l.stack| > 1 ==> l.stack[1] in l.stack && l.stack[1] != l.stack[0];
    }
    if link[t].Some? && link[t].value != a {
      if t == l.stack[0] {
        TopHeld(g, a, n, l, m, link, next);
      } else {
        assert UpAt(g, a, l, link, t);
        HeldStays(g, l, m, link, next, link[t].value);
      }
    }
  }

  lemma {:induction false} PopOnce(l: Lists, m: Lists)
    requires l.stack != [] && m == Pop(l) && OnceSeen(l)
    ensures OnceSeen(m)
  {
    assert l.stack == [l.stack[0]] + l.stack[1..] && l.stack[0] in l.stack;
  }

  lemma {:induction false} PopLinking(g: Graph, a: nat, n: Option<nat>, l: Lists, m: Lists, link: seq<Option<nat>>,
                                      next: seq<Option<nat>>)
    requires OneList(g) && Linking(g, a, n, l, link) && l.stack != [] && m == Pop(l) && next == PopLink(g, a, l, link)
    ensures Linking(g, a, n, m, next)
  {
    PopSeen(l, m);
    PopChain(g, a, l.stack);
    PopWaiting(l, m);
    PopOnce(l, m);
    PopLinked(g, a, l, m, link, next);
    forall s: nat | m.Seen(s) ensures KeptAt(g, n, next, s) { PopKept(g, a, n, l, link, next, s); }
    forall t: nat | t in m.second ensures UpAt(g, a, m, next, t) { PopUp(g, a, n, l, m, link, next, t); }
  }

  // ----- without cycles -----

  ghost predicate AloneAt(g: Graph, l: Lists, j: nat, s: nat)
    requires j < |l.stack|
  {
    s < |g.inst| && l.stack[j] < |g.inst| && (g.inst[s] == g.inst[l.stack[j]] ==> s == l.stack[j])
  }

  /** A spawn with others above it is the only one seen of its instance. */
  ghost predicate Alone(g: Graph, l: Lists) {
    forall j: nat, s: nat :: 1 <= j < |l.stack| && l.Seen(s) ==> AloneAt(g, l, j, s)
  }

  ghost predicate OneKept(g: Graph, n: Option<nat>, link: seq<Option<nat>>, s: nat, t: nat) {
    s < |g.inst| && t < |g.inst| && s < |link| && t < |link| &&
    (g.inst[s] == g.inst[t] && n != Some(g.inst[s]) ==> link[s].None? || link[t].None?)
  }

  /** Of the spawns of an instance other than n at most one is kept. */
  ghost predicate AtMostOne(g: Graph, n: Option<nat>, l: Lists, link: seq<Option<nat>>) {
    forall s: nat, t: nat :: l.Seen(s) && l.Seen(t) && s != t ==> OneKept(g, n, link, s, t)
  }

  /** What sits on the instance of a spawn was done with before the spawn. */
  ghost predicate DoneFirst(g: Graph, second: seq<nat>) {
    second == [] ||
    (second[0] < |g.inst| && g.inst[second[0]] < |g.users|
     && (forall f: nat :: f in g.users[g.inst[second[0]]] ==> f in second[1..]) && DoneFirst(g, second[1..]))
  }

  ghost predicate Nested(g: Graph, n: Option<nat>, l: Lists, link: seq<Option<nat>>) {
    Alone(g, l) && AtMostOne(g, n, l, link) && DoneFirst(g, l.second)
  }

  /** Upwards on the stack everything is built on what is below. */
  lemma {:induction false} ChainBuilt(g: Graph, a: nat, stack: seq<nat>, i: nat, j: nat)
    requires Chain(g, a, stack) && i < j < |stack| && forall k :: 0 <= k < |stack| ==> stack[k] < |g.inst|
    ensures BuiltOn(g, g.inst[stack[i]], g.inst[stack[j]])
    decreases j - i
  {
    assert ChainAt(g, a, stack, i);
    if i + 1 < j { ChainBuilt(g, a, stack, i + 1, j); }
    BuiltStep(g, g.inst[stack[j]], g.inst[stack[i + 1]], stack[i]);
  }

  lemma {:induction false} StackBound(g: Graph, a: nat, l: Lists)
    requires SeenOk(g, a, l)
    ensures forall k :: 0 <= k < |l.stack| ==> l.stack[k] < |g.inst|
  {
    forall k | 0 <= k < |l.stack| ensures l.stack[k] < |g.inst| {
      assert l.Seen(l.stack[k]) && SeenAt(g, a, l, l.stack[k]);
    }
  }

  /** The spawn the walk stands on, with something left, is the only one seen of its instance. */
  lemma {:induction false} TopAlone(g: Graph, a: nat, l: Lists, s: nat)
    requires Acyclic(g) && Walking(g, a, l) && Chain(g, a, l.stack) && l.stack != [] && Left(g, l) != [] && l.Seen(s)
    ensures AloneAt(g, l, 0, s)
  {
    StackBound(g, a, l);
    assert SeenAt(g, a, l, s);
    if s in l.stack {
      var k: nat :| k < |l.stack| && l.stack[k] == s;
      if k > 0 {
        ChainBuilt(g, a, l.stack, 0, k);
        assert !BuiltOn(g, g.inst[s], g.inst[s]);
      }
    }
  }

  lemma {:induction false} PushAlone(g: Graph, a: nat, l: Lists, m: Lists)
    requires g.Ok() && Acyclic(g) && Walking(g, a, l) && Left(g, l) != [] && m == Push(g, l)
    requires Chain(g, a, l.stack) && Chain(g, a, m.stack) && SeenOk(g, a, m) && Alone(g, l)
    ensures Alone(g, m)
  {
    var x := Left(g, l)[0];
    PushSeen(g, l, m);
    PushSource(g, a, l, m);
    StackBound(g, a, m);
    forall j: nat, s: nat | 1 <= j < |m.stack| && m.Seen(s) ensures AloneAt(g, m, j, s) {
      assert m.stack[j] == l.stack[j - 1] && SeenAt(g, a, m, s);
      if s == x {
        ChainBuilt(g, a, m.stack, 0, j);
        assert !BuiltOn(g, g.inst[x], g.inst[x]);
      } else if j == 1 {
        TopAlone(g, a, l, s);
      } else {
        assert AloneAt(g, l, j - 1, s);
      }
    }
  }

  lemma {:induction false} PushNested(g: Graph, a: nat, n: Option<nat>, l: Lists, m: Lists, link: seq<Option<nat>>,
                                      next: seq<Option<nat>>)
    requires g.Ok() && OneList(g) && Acyclic(g) && Walking(g, a, l) && Left(g, l) != [] && m == Push(g, l)
    requires Walking(g, a, m) && Linking(g, a, n, l, link) && Linking(g, a, n, m, next) && Nested(g, n, l, link)
    requires Left(g, l)[0] < |link| && next == PushLink(g, n, l, link)
    ensures Nested(g, n, m, next)
  {
    var x := Left(g, l)[0];
    PushSeen(g, l, m);
    PushAlone(g, a, l, m);
    forall s: nat, t: nat | m.Seen(s) && m.Seen(t) && s != t ensures OneKept(g, n, next, s, t) {
      assert SeenAt(g, a, m, s) && SeenAt(g, a, m, t);
      if s != x && t != x { assert OneKept(g, n, link, s, t); }
    }
    assert m.second == l.second;
  }

  /** When a spawn is popped, all that sits on its instance is done with. */
  lemma {:induction false} AllDone(g: Graph, a: nat, l: Lists, f: nat)
    requires OneList(g) && Acyclic(g) && Walking(g, a, l) && Chain(g, a, l.stack) && l.stack != [] && Left(g, l) == []
    requires l.stack[0] < |g.inst| && g.inst[l.stack[0]] < |g.users| && f in g.users[g.inst[l.stack[0]]]
    ensures f in l.second
  {
    var x := g.inst[l.stack[0]];
    StackBound(g, a, l);
    assert SeenAt(g, a, l, l.stack[0]) by { assert l.Seen(l.stack[0]); }
    assert LeftAt(g, a, l, x);
    assert l.Seen(f);
    if f in l.stack {
      var j: nat :| j < |l.stack| && l.stack[j] == f;
      assert ChainAt(g, a, l.stack, j);
      assert Under(g, a, l.stack, j) == x;
      assert !BuiltOn(g, x, x);
      ChainBuilt(g, a, l.stack, 0, j + 1);
    }
  }

  lemma {:induction false} PopNested(g: Graph, a: nat, n: Option<nat>, l: Lists, m: Lists, link: seq<Option<nat>>,
                                     next: seq<Option<nat>>)
    requires OneList(g) && Acyclic(g) && Walking(g, a, l) && Linking(g, a, n, l, link) && Nested(g, n, l, link)
    requires l.stack != [] && Left(g, l) == [] && m == Pop(l) && next == PopLink(g, a, l, link)
    ensures Nested(g, n, m, next)
  {
    PopSeen(l, m);
    forall j: nat, s: nat | 1 <= j < |m.stack| && m.Seen(s) ensures AloneAt(g, m, j, s) {
      assert AloneAt(g, l, j + 1, s);
    }
    forall s: nat, t: nat | m.Seen(s) && m.Seen(t) && s != t ensures OneKept(g, n, next, s, t) {
      assert OneKept(g, n, link, s, t);
      if |l.stack| > 1 { assert AloneAt(g, l, 1, s) && AloneAt(g, l, 1, t); }
    }
    assert SeenAt(g, a, l, l.stack[0]) by { assert l.Seen(l.stack[0]); }
    forall f: nat | f in g.users[g.inst[l.stack[0]]] ensures f in l.second { AllDone(g, a, l, f); }
    assert m.second[1..] == l.second;
  }

  // ----- the walk -----

  /** Before the walk every spawn points at its algorithm. */
  ghost predicate AllLinked(g: Graph, link: seq<Option<nat>>) {
    |link| == |g.inst| && forall b: nat, s: nat :: b < |g.users| && s in g.users[b] ==> s < |link| && link[s] == Some(b)
  }

  lemma {:induction false} StartLinking(g: Graph, a: nat, n: Option<nat>, l: Lists, link: seq<Option<nat>>)
    requires g.Ok() && OneList(g) && a < |g.users| && AllLinked(g, link)
    requires l == Lists(g.users[a := []], Reversed(g.users[a]), [], [])
    ensures Linking(g, a, n, l, link) && Nested(g, n, l, link)
  {
    ReversedNoDup(g.users[a]);
    forall b: nat | b < |l.users| ensures WaitsAt(l, b) { assert NoDup(g.users[b]); }
    forall b: nat, s: nat | b < |g.users| && s in g.users[b] ensures LinkAt(g, l, link, b, s) { }
  }

  lemma {:induction false} ReversedNoDup(l: seq<nat>)
    requires NoDup(l)
    ensures NoDup(Reversed(l))
  {
    if l != [] {
      var rest := l[1..];
      assert l == [l[0]] + rest;
      ReversedNoDup(rest);
      forall i | 0 <= i < |Reversed(rest)| ensures Reversed(rest)[i] != l[0] {
        assert Reversed(rest)[i] in rest;
        var k :| 0 <= k < |rest| && rest[k] == Reversed(rest)[i];
        assert rest[k] == l[k + 1];
      }
    }
  }

  /** The walk is over: l holds what it took, link what it left. */
  ghost predicate Walked(g: Graph, a: nat, n: Option<nat>, l: Lists, link: seq<Option<nat>>) {
    && Walking(g, a, l) && l.stack == [] && l.top == [] && Linking(g, a, n, l, link)
    && (Acyclic(g) ==> Nested(g, n, l, link))
  }

  /** crypto_remove_spawns up to its last loop, on the lists it may follow. Its
      check for an algorithm built on itself fires exactly when the algorithm is. */
  method Walk(g: Graph, a: nat, n: Option<nat>, link0: seq<Option<nat>>)
    returns (bug: bool, l: Lists, link: seq<Option<nat>>)
    requires g.Ok() && OneList(g) && a < |g.users| && AllLinked(g, link0)
    ensures bug == BuiltOn(g, a, a)
    ensures !bug ==> Walked(g, a, n, l, link)
    ensures !bug ==> forall s: nat :: s in l.second <==> Affected(g, s, a)
    ensures !bug ==> Untouched(l, link0, link)
  {
    l, link := Lists(g.users[a := []], Reversed(g.users[a]), [], []), link0;
    StartWalk(g, a, l);
    StartLinking(g, a, n, l, link);
    var more := true;
    while more
      invariant Midway(g, a, n, l, link0, link) && (!more ==> l.stack == [] && l.top == [])
      decreases Weight(l), |l.stack|, more
    {
      ghost var before := l;
      while Left(g, l) != []
        invariant Midway(g, a, n, l, link0, link) && (l == before || Weight(l) < Weight(before))
        decreases Weight(l)
      {
        var b := PushFrom(g, a, l);
        if g.inst[Left(g, l)[0]] == a { return true, l, link; }
        PushAll(g, a, n, l, link0, link);
        link := PushLink(g, n, l, link);
        l := Push(g, l);
      }
      if l.stack == [] {
        more := false;
      } else {
        PopAll(g, a, n, l, link0, link);
        link := PopLink(g, a, l, link);
        l := Pop(l);
      }
    }
    bug := false;
    WalkFinds(g, a, l, a);
    forall s: nat ensures s in l.second <==> Affected(g, s, a) { WalkTakes(g, a, l, s); }
  }

  ghost predicate Midway(g: Graph, a: nat, n: Option<nat>, l: Lists, link0: seq<Option<nat>>, link: seq<Option<nat>>) {
    Walking(g, a, l) && Linking(g, a, n, l, link) && (Acyclic(g) ==> Nested(g, n, l, link)) && Untouched(l, link0, link)
  }

  /** The links of spawns that were not seen are as they were. */
  ghost predicate Untouched(l: Lists, link0: seq<Option<nat>>, link: seq<Option<nat>>) {
    |link| == |link0| && forall s: nat :: s < |link| && !l.Seen(s) ==> link[s] == link0[s]
  }

  lemma {:induction false} PushUntouched(g: Graph, n: Option<nat>, l: Lists, link0: seq<Option<nat>>,
                                         link: seq<Option<nat>>)
    requires Left(g, l) != [] && Left(g, l)[0] < |link| && |link| == |g.inst| && Untouched(l, link0, link)
    ensures Untouched(Push(g, l), link0, PushLink(g, n, l, link))
  {
    PushSeen(g, l, Push(g, l));
  }

  lemma {:induction false} PushAll(g: Graph, a: nat, n: Option<nat>, l: Lists, link0: seq<Option<nat>>,
                                   link: seq<Option<nat>>)
    requires g.Ok() && OneList(g) && Midway(g, a, n, l, link0, link) && Left(g, l) != []
    requires Left(g, l)[0] < |link| && g.inst[Left(g, l)[0]] != a
    ensures Midway(g, a, n, Push(g, l), link0, PushLink(g, n, l, link)) && Weight(Push(g, l)) < Weight(l)
  {
    var m, next := Push(g, l), PushLink(g, n, l, link);
    PushKeeps(g, a, l, m);
    PushLinking(g, a, n, l, m, link, next);
    if Acyclic(g) { PushNested(g, a, n, l, m, link, next); }
    PushUntouched(g, n, l, link0, link);
  }

  lemma {:induction false} PopAll(g: Graph, a: nat, n: Option<nat>, l: Lists, link0: seq<Option<nat>>,
                                  link: seq<Option<nat>>)
    requires OneList(g) && Midway(g, a, n, l, link0, link) && l.stack != [] && Left(g, l) == []
    ensures Midway(g, a, n, Pop(l), link0, PopLink(g, a, l, link)) && Weight(Pop(l)) == Weight(l)
  {
    var m, next := Pop(l), PopLink(g, a, l, link);
    PopKeeps(g, a, l, m);
    PopLinking(g, a, n, l, m, link, next);
    if Acyclic(g) { PopNested(g, a, n, l, m, link, next); }
    PopSeen(l, m);
  }

  // ----- what the walk leaves of the way to n -----

  /** x is on the way from a to n. */
  ghost predicate OnWay(g: Graph, a: nat, n: nat, x: nat) { x != n && BuiltOn(g, x, a) && BuiltOn(g, n, x) }

  /** Some spawn of x was taken and is cut: x will be marked dead. */
  ghost predicate Killed(g: Graph, second: seq<nat>, link: seq<Option<nat>>, x: nat) {
    exists s: nat :: s in second && s < |g.inst| && g.inst[s] == x && s < |link| && link[s].None?
  }

  predicate Owns(g: Graph, x: nat, s: nat) { s < |g.inst| && g.inst[s] == x }

  /** At most one spawn of x sits on a or on something built on a. */
  ghost predicate Single(g: Graph, a: nat, x: nat) {
    forall s: nat, t: nat :: Affected(g, s, a) && Affected(g, t, a) && Owns(g, x, s) && Owns(g, x, t) ==> s == t
  }

  /** Exactly the instances built on the algorithm die when nothing replaces it. */
  lemma {:induction false} AllDie(g: Graph, a: nat, l: Lists, link: seq<Option<nat>>, x: nat)
    requires Walked(g, a, None, l, link)
    ensures Killed(g, l.second, link, x) <==> BuiltOn(g, x, a)
  {
    WalkFinds(g, a, l, x);
    if BuiltOn(g, x, a) {
      var s: nat :| s in l.second && s < |g.inst| && g.inst[s] == x;
      assert l.Seen(s) && KeptAt(g, None, link, s);
    }
  }

  /** The replacement is not killed, and of the rest everything that it is not built on is. */
  lemma {:induction false} OthersDie(g: Graph, a: nat, n: nat, l: Lists, link: seq<Option<nat>>, x: nat)
    requires Walked(g, a, Some(n), l, link)
    ensures !Killed(g, l.second, link, n)
    ensures Killed(g, l.second, link, x) ==> BuiltOn(g, x, a)
    ensures BuiltOn(g, x, a) && x != n && !BuiltOn(g, n, x) ==> Killed(g, l.second, link, x)
  {
    WalkFinds(g, a, l, x);
    forall s: nat | s in l.second ensures KeptAt(g, Some(n), link, s) { assert l.Seen(s); }
  }

  /** What the spawn t sits on is held, if t is kept. */
  lemma {:induction false} KeptHolds(g: Graph, a: nat, n: nat, l: Lists, link: seq<Option<nat>>, x: nat, t: nat)
    requires Walked(g, a, Some(n), l, link) && x != a && x < |g.users| && t in g.users[x] && t in l.second
    requires t < |link| && link[t].Some?
    ensures Held(g, l, link, x)
  {
    assert LinkAt(g, l, link, x, t);
    assert UpAt(g, a, l, link, t);
  }

  lemma {:induction false} WayHeld(g: Graph, a: nat, n: nat, l: Lists, link: seq<Option<nat>>, x: nat, p: seq<nat>)
    requires Walked(g, a, Some(n), l, link) && BuiltOn(g, x, a) && x != n
    requires p != [] && IsPath(g, x, p) && PathEnd(g, x, p) == n
    requires forall y: nat :: OnWay(g, a, n, y) ==> Single(g, a, y)
    ensures Held(g, l, link, x)
    decreases |p|
  {
    var t := p[0];
    var y := g.inst[t];
    BuiltStep(g, a, x, t);
    WalkFinds(g, a, l, x);
    assert Affected(g, t, a);
    WalkTakes(g, a, l, t);
    assert l.Seen(t) && KeptAt(g, Some(n), link, t);
    if y != n {
      assert OnWay(g, a, n, y) by { assert IsPath(g, y, p[1..]) && PathEnd(g, y, p[1..]) == n; }
      WayHeld(g, a, n, l, link, y, p[1..]);
      var s: nat :| l.Seen(s) && s < |g.inst| && g.inst[s] == y && s < |link| && link[s].Some?;
      assert SeenAt(g, a, l, s);
      assert Single(g, a, y) && Owns(g, y, s) && Owns(g, y, t);
    }
    KeptHolds(g, a, n, l, link, x, t);
  }

  lemma {:induction false} SingleLives(g: Graph, a: nat, n: nat, l: Lists, link: seq<Option<nat>>, x: nat)
    requires Walked(g, a, Some(n), l, link) && OnWay(g, a, n, x)
    requires forall y: nat :: OnWay(g, a, n, y) ==> Single(g, a, y)
    ensures !Killed(g, l.second, link, x)
  {
    var p :| p != [] && IsPath(g, x, p) && PathEnd(g, x, p) == n;
    WayHeld(g, a, n, l, link, x, p);
    assert Single(g, a, x);
    var s: nat :| l.Seen(s) && s < |g.inst| && g.inst[s] == x && s < |link| && link[s].Some?;
    assert Owns(g, x, s) && SeenAt(g, a, l, s);
    forall t: nat | t in l.second && t < |g.inst| && g.inst[t] == x ensures t == s {
      assert l.Seen(t) && SeenAt(g, a, l, t) && Owns(g, x, t);
    }
  }

  lemma {:induction false} TwiceKilled(g: Graph, a: nat, n: nat, l: Lists, link: seq<Option<nat>>, x: nat)
    requires Walked(g, a, Some(n), l, link) && Acyclic(g) && x != n && !Single(g, a, x)
    ensures Killed(g, l.second, link, x)
  {
    var s: nat, t: nat :| Affected(g, s, a) && Affected(g, t, a) && Owns(g, x, s) && Owns(g, x, t) && s != t;
    WalkTakes(g, a, l, s);
    WalkTakes(g, a, l, t);
    assert l.Seen(s) && l.Seen(t) && OneKept(g, Some(n), link, s, t);
  }

  /** Nothing on the way to the replacement is killed. */
  ghost predicate WayLives(g: Graph, a: nat, n: nat, second: seq<nat>, link: seq<Option<nat>>) {
    forall x: nat :: OnWay(g, a, n, x) ==> !Killed(g, second, link, x)
  }

  /** Every instance on the way is reached by one spawn only. */
  ghost predicate WaySingle(g: Graph, a: nat, n: nat) {
    forall x: nat :: OnWay(g, a, n, x) ==> Single(g, a, x)
  }

  /** When a replacement is installed, nothing that it is built on is killed exactly
      if each such instance is reached from the algorithm by one spawn only: that is
      what a caller would have to check. */
  lemma {:induction false} ReplacementStands(g: Graph, a: nat, n: nat, l: Lists, link: seq<Option<nat>>)
    requires Walked(g, a, Some(n), l, link) && Acyclic(g)
    ensures WayLives(g, a, n, l.second, link) <==> WaySingle(g, a, n)
  {
    if WaySingle(g, a, n) {
      forall x: nat | OnWay(g, a, n, x) ensures !Killed(g, l.second, link, x) { SingleLives(g, a, n, l, link, x); }
    } else {
      var x: nat :| OnWay(g, a, n, x) && !Single(g, a, x);
      TwiceKilled(g, a, n, l, link, x);
    }
  }

  /** A graph in which every spawn leads to a larger number has no cycle. */
  lemma {:induction false} Upwards(g: Graph, x: nat, p: seq<nat>)
    requires forall b: nat, s: nat :: b < |g.users| && s in g.users[b] && s < |g.inst| ==> g.inst[s] > b
    requires p != [] && IsPath(g, x, p)
    ensures PathEnd(g, x, p) > x
    decreases |p|
  {
    if p[1..] != [] { Upwards(g, g.inst[p[0]], p[1..]); }
  }

  lemma {:induction false} UpwardsAcyclic(g: Graph)
    requires forall b: nat, s: nat :: b < |g.users| && s in g.users[b] && s < |g.inst| ==> g.inst[s] > b
    ensures Acyclic(g)
  {
    forall x: nat ensures !BuiltOn(g, x, x) {
      forall p | p != [] && IsPath(g, x, p) ensures PathEnd(g, x, p) != x { Upwards(g, x, p); }
    }
  }

  /** An instance, 1, that uses algorithm 0 twice, and one, 2, built on it. */
  lemma DiamondOk(g: Graph)
    requires g == Graph([1, 1, 2], [[0, 1], [2], []])
    ensures g.Ok() && OneList(g) && Acyclic(g)
  {
    UpwardsAcyclic(g);
  }

  /** A replacement built on an instance that uses the old algorithm twice: however
      the walk goes, the instance it is built on is killed. */
  lemma ReplacementMayFall() returns (g: Graph, a: nat, n: nat, x: nat)
    ensures g.Ok() && OneList(g) && Acyclic(g) && a < |g.users| && n < |g.users| && g.users[n] == []
    ensures OnWay(g, a, n, x) && !WaySingle(g, a, n)
    ensures forall l, link :: Walked(g, a, Some(n), l, link) ==> Killed(g, l.second, link, x)
  {
    g, a, n, x := Graph([1, 1, 2], [[0, 1], [2], []]), 0, 2, 1;
    DiamondOk(g);
    BuiltStep(g, 0, 0, 0);
    BuiltStep(g, 1, 1, 2);
    assert OnWay(g, a, n, x);
    assert 0 in g.users[0] && 1 in g.users[0];
    assert Affected(g, 0, a) && Affected(g, 1, a) && Owns(g, x, 0) && Owns(g, x, 1);
    assert !Single(g, a, x);
    forall l, link | Walked(g, a, Some(n), l, link) ensures Killed(g, l.second, link, x) {
      TwiceKilled(g, a, n, l, link, x);
    }
  }
}
