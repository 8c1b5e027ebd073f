/** crypto_remove_spawn, crypto_remove_spawns and crypto_remove_alg of
    crypto/algapi.c in place. */
module SpawnRegistry {

  import opened Spawns
  import opened SpawnLinks
  import opened SpawnTypes
  import opened Options

  // ----- the lists after the walk -----

  /** What is left on the real lists once the walk over h is done. */
  function Base(g: Graph, y: Types, a: nat, n: Option<nat>, l: Lists): seq<seq<nat>>
    requires a < |g.users| == |y.flags| == |l.users| && (n.Some? ==> n.value < |g.users|)
  {
    var users := l.users[a := Staying(y, a, NewType(y, a, n), g.users[a])];
    if n.Some? then users[n.value := g.users[n.value]] else users
  }

  /** A spawn is affected through the one list it is on. */
  lemma {:induction false} AffectedHere(g: Graph, h: Graph, a: nat, b: nat, s: nat)
    requires OneList(g) && h.inst == g.inst && |h.users| == |g.users| && b < |g.users| && s in g.users[b]
    requires forall c: nat, t: nat :: c < |h.users| && t in h.users[c] ==> t in g.users[c]
    ensures Affected(h, s, a) <==> s in h.users[b] && (b == a || BuiltOn(h, b, a))
  {
  }

  lemma {:induction false} BaseAt(g: Graph, h: Graph, y: Types, a: nat, n: Option<nat>, l: Lists, base: seq<seq<nat>>,
                                  b: nat)
    requires a < |g.users| == |y.flags| && (n.Some? ==> n.value < |g.users| && n.value != a)
    requires g.Ok() && OneList(g) && h == Followed(g, y, a, n)
    requires Walking(h, a, l) && l.stack == [] && l.top == [] && base == Base(g, y, a, n, l) && b < |g.users|
    ensures |base| == |g.users| && NoDup(base[b])
    ensures forall s: nat :: s in base[b] <==> s in g.users[b] && s !in l.second
  {
    FollowedOk(g, y, a, n, h);
    TakenNoDup(y, a, NewType(y, a, n), g.users[a]);
    WalkEmpties(h, a, l, b);
    forall s: nat | s in g.users[b] ensures s in base[b] <==> s !in l.second {
      AffectedHere(g, h, a, b, s);
      WalkTakes(h, a, l, s);
    }
    assert NoDup(g.users[b]);
  }

  lemma {:induction false} DoneAfter(g: Graph, second: seq<nat>, k: nat, f: nat)
    requires DoneFirst(g, second) && k < |second|
    ensures second[k] < |g.inst| && g.inst[second[k]] < |g.users|
    ensures f in g.users[g.inst[second[k]]] ==> f in second[k + 1..]
  {
    if k > 0 {
      DoneAfter(g, second[1..], k - 1, f);
      assert second[1..][k..] == second[k + 1..];
    }
  }

  /** What sits on instance x was put back before entry k. */
  ghost predicate BackBefore(second: seq<nat>, link: seq<Option<nat>>, k: nat, x: nat)
    requires k <= |second|
  {
    exists j: nat :: j < k && second[j] < |link| && link[second[j]] == Some(x)
  }

  /** Nothing is back on the list of an instance when a cut spawn of it is met. */
  ghost predicate SafeAt(inst: seq<nat>, users: seq<seq<nat>>, second: seq<nat>, link: seq<Option<nat>>, k: nat)
    requires k < |second|
  {
    && second[k] < |inst| && second[k] < |link| && inst[second[k]] < |users|
    && (link[second[k]].Some? ==> link[second[k]].value < |users|)
    && (link[second[k]].None? ==> users[inst[second[k]]] == [] && !BackBefore(second, link, k, inst[second[k]]))
  }

  lemma {:induction false} NotLater(second: seq<nat>, k: nat, j: nat)
    requires NoDup(second) && j < k < |second|
    ensures second[j] !in second[k + 1..]
  {
  }

  /** A spawn that is not cut points at the algorithm whose list it came from. */
  lemma {:induction false} LinkValue(h: Graph, a: nat, n: Option<nat>, l: Lists, link: seq<Option<nat>>, s: nat)
    requires Walked(h, a, n, l, link) && l.Seen(s)
    ensures s < |link| && (link[s].Some? ==> link[s].value < |h.users| && s in h.users[link[s].value])
  {
    assert SeenAt(h, a, l, s);
    var b: nat :| (b == a || BuiltOn(h, b, a)) && b < |h.users| && s in h.users[b];
    assert LinkAt(h, l, link, b, s);
  }

  lemma {:induction false} NotBack(h: Graph, a: nat, n: Option<nat>, l: Lists, link: seq<Option<nat>>, k: nat, j: nat)
    requires Walked(h, a, n, l, link) && Acyclic(h) && j < k < |l.second|
    ensures l.second[j] < |link| && l.second[k] < |h.inst| && link[l.second[j]] != Some(h.inst[l.second[k]])
  {
    var f := l.second[j];
    DoneAfter(h, l.second, k, f);
    assert l.Seen(f);
    LinkValue(h, a, n, l, link, f);
    NotLater(l.second, k, j);
  }

  lemma {:induction false} SafeOrder(h: Graph, a: nat, n: Option<nat>, l: Lists, link: seq<Option<nat>>,
                                     base: seq<seq<nat>>, k: nat)
    requires Walked(h, a, n, l, link) && Acyclic(h) && k < |l.second| && |base| == |h.users|
    requires forall b: nat :: b < |base| && b != a && n != Some(b) ==> base[b] == l.users[b]
    ensures SafeAt(h.inst, base, l.second, link, k)
  {
    var s := l.second[k];
    assert l.Seen(s) && SeenAt(h, a, l, s) && KeptAt(h, n, link, s);
    LinkValue(h, a, n, l, link, s);
    if link[s].None? {
      forall j: nat | j < k ensures l.second[j] < |link| && link[l.second[j]] != Some(h.inst[s]) {
        NotBack(h, a, n, l, link, k, j);
      }
    }
  }

  /** crypto_remove_spawns and crypto_remove_alg on the lists and flags of the API. */
  class Registry {
    const inst: seq<nat>
    const y: Types
    /** Instances whose template can still be taken, with crypto_tmpl_get. */
    const live: set<nat>
    var users: seq<seq<nat>>
    /** The algorithm each spawn points at. */
    var link: seq<Option<nat>>
    var listed: set<nat>
    var hashed: set<nat>
    var dead: set<nat>

    constructor (g: Graph, link: seq<Option<nat>>, y: Types, live: set<nat>, listed: set<nat>, hashed: set<nat>,
                 dead: set<nat>)
      requires g.Ok() && OneList(g) && AllLinked(g, link) && |y.flags| == |g.users| && |y.mask| == |g.inst|
      ensures Valid() && View() == g && this.link == link && this.y == y && this.live == live
      ensures this.listed == listed && this.hashed == hashed && this.dead == dead
    {
      inst, users, this.link, this.y, this.live := g.inst, g.users, link, y, live;
      this.listed, this.hashed, this.dead := listed, hashed, dead;
    }

    function View(): Graph reads this { Graph(inst, users) }

    /** Every spawn on a list is on that one only and points at its algorithm. */
    ghost predicate Valid() reads this {
      View().Ok() && OneList(View()) && AllLinked(View(), link) && |y.flags| == |users| && |y.mask| == |inst|
    }

    predicate Goes(x: nat, dead: set<nat>, hashed: set<nat>) {
      x !in dead && x in hashed && x in live
    }

    /** crypto_remove_spawn, for spawn s; its check holds. */
    method RemoveSpawn(s: nat, list: seq<nat>) returns (list': seq<nat>)
      requires s < |inst|
      requires inst[s] < |users| && users[inst[s]] == []
      modifies this`dead, this`hashed, this`listed
      ensures dead == old(dead) + {inst[s]}
      ensures list'
           == if inst[s] !in old(dead) && inst[s] in old(hashed) && inst[s] in live then [inst[s]] + list else list
      ensures list' == if Goes(inst[s], old(dead), old(hashed)) then [inst[s]] + list else list
      ensures hashed == old(hashed) - (if Goes(inst[s], old(dead), old(hashed)) then {inst[s]} else {})
      ensures listed == old(listed) - (if Goes(inst[s], old(dead), old(hashed)) then {inst[s]} else {})
    {
      list' := list;
      if inst[s] in dead { return; }
      dead := dead + {inst[s]};
      if inst[s] !in hashed { return; }
      if inst[s] !in live { return; }
      list' := [inst[s]] + list;
      listed := listed - {inst[s]};
      hashed := hashed - {inst[s]};
      assert users[inst[s]] == [];
    }

    /** The owners of the cut spawns among the first k. */
    ghost function Cut(second: seq<nat>, k: nat): set<nat>
      requires k <= |second| && |link| == |inst| && forall i :: 0 <= i < |second| ==> second[i] < |inst|
      reads this`link
    {
      set i | 0 <= i < k && link[second[i]].None? :: inst[second[i]]
    }

    lemma {:induction false} CutNext(second: seq<nat>, k: nat)
      requires k < |second| && |link| == |inst| && forall i :: 0 <= i < |second| ==> second[i] < |inst|
      ensures Cut(second, k + 1) == Cut(second, k) + if link[second[k]].None? then {inst[second[k]]} else {}
    {
      assert link[second[k]].None? ==> inst[second[k]] in Cut(second, k + 1);
    }

    /** Of the instances `who`, those that move to the caller's list. */
    ghost function Gone(who: set<nat>, dead: set<nat>, hashed: set<nat>): set<nat> {
      set x | x in who && Goes(x, dead, hashed)
    }

    lemma {:induction false} GoneWith(who: set<nat>, x: nat, dead: set<nat>, hashed: set<nat>)
      ensures Goes(x, dead + who, hashed - Gone(who, dead, hashed)) <==> x !in who && Goes(x, dead, hashed)
      ensures Gone(who + {x}, dead, hashed) == Gone(who, dead, hashed) + if Goes(x, dead, hashed) then {x} else {}
    {
    }

    ghost predicate Exactly(list: seq<nat>, who: set<nat>) {
      NoDup(list) && forall x: nat :: x in list <==> x in who
    }

    /** The last loop of crypto_remove_spawns: a spawn that still points at its
        algorithm goes back to it, the instance of any other is removed. */
    method Finish(second: seq<nat>) returns (list: seq<nat>)
      requires |link| == |inst| && Clear(users, second)
      requires forall k: nat :: k < |second| ==> SafeAt(inst, users, second, link, k)
      modifies this`users, this`dead, this`hashed, this`listed
      ensures BackTo(users, old(users), second, link, |second|)
      ensures forall i :: 0 <= i < |second| ==> second[i] < |inst|
      ensures dead == old(dead) + Cut(second, |second|)
      ensures Exactly(list, Gone(Cut(second, |second|), old(dead), old(hashed)))
      ensures hashed == old(hashed) - Gone(Cut(second, |second|), old(dead), old(hashed))
      ensures listed == old(listed) - Gone(Cut(second, |second|), old(dead), old(hashed))
    {
      list := [];
      forall i | 0 <= i < |second| ensures second[i] < |inst| { assert SafeAt(inst, users, second, link, i); }
      BackNone(users, second, link);
      for k := 0 to |second|
        invariant BackTo(users, old(users), second, link, k)
        invariant dead == old(dead) + Cut(second, k)
        invariant Exactly(list, Gone(Cut(second, k), old(dead), old(hashed)))
        invariant hashed == old(hashed) - Gone(Cut(second, k), old(dead), old(hashed))
        invariant listed == old(listed) - Gone(Cut(second, k), old(dead), old(hashed))
      {
        CutNext(second, k);
        var s := second[k];
        assert SafeAt(inst, old(users), second, link, k);
        BackNext(users, old(users), second, link, k);
        if link[s].Some? {
          var b := link[s].value;
          users := users[b := [s] + users[b]];
        } else {
          StillEmpty(users, old(users), second, link, k, inst[s]);
          GoneWith(Cut(second, k), inst[s], old(dead), old(hashed));
          list := RemoveSpawn(s, list);
        }
      }
    }

    lemma {:induction false} CutIs(second: seq<nat>, x: nat)
      requires |link| == |inst| && forall i :: 0 <= i < |second| ==> second[i] < |inst|
      ensures x in Cut(second, |second|) <==> Killed(Graph(inst, users), second, link, x)
    {
      if Killed(Graph(inst, users), second, link, x) {
        var s: nat :| s in second && s < |inst| && inst[s] == x && link[s].None?;
        var i :| 0 <= i < |second| && second[i] == s;
        assert inst[second[i]] in Cut(second, |second|);
      }
    }

    /** crypto_remove_spawns. What dies is exactly what has a spawn that was taken
        and cut; a list keeps exactly the spawns that still point at its algorithm;
        of the dead, those still hashed whose template can be taken move to the
        caller's list, each once. */
    method RemoveSpawns(a: nat, n: Option<nat>) returns (list: seq<nat>, ghost l: Lists)
      requires Valid() && Acyclic(View()) && a < |users| && (n.Some? ==> n.value < |users| && n.value != a)
      modifies this
      ensures Valid() && |users| == |old(users)|
      ensures var h := Followed(old(View()), y, a, n);
        && Walked(h, a, n, l, link) && (forall s: nat :: s in l.second <==> Affected(h, s, a))
        && (forall x: nat :: x in dead <==> x in old(dead) || Killed(h, l.second, link, x))
        && (forall x: nat :: x in list <==> Killed(h, l.second, link, x) && Goes(x, old(dead), old(hashed)))
      ensures Pointed(users, old(users), link) && Untouched(l, old(link), link)
      ensures forall s: nat :: s in old(users)[a] && Differs(y, a, n, s) ==>
        s in users[a] && s < |link| && link[s] == Some(a) && old(link)[s] == Some(a)
      ensures forall x: nat :: x in dead && x !in old(dead) ==> n != Some(x) && Struck(old(View()), y, a, n, x)
      ensures forall x: nat :: Struck(old(View()), y, a, n, x) && Apart(old(View()), n, x) ==> x in dead
      ensures NoDup(list)
      ensures forall x: nat :: x in hashed <==> x in old(hashed) && x !in list
      ensures forall x: nat :: x in listed <==> x in old(listed) && x !in list
    {
      var g := View();
      var h := Followed(g, y, a, n);
      FollowedOk(g, y, a, n, h);
      StillAcyclic(g, h);
      ghost var link0 := link;
      var bug, walk, left := Walk(h, a, n, link);
      l := walk;
      users, link := Base(g, y, a, n, walk), left;
      Prepared(g, h, y, a, n, walk, link, users);
      ghost var base := users;
      list := Finish(walk.second);
      FinalLists(g, h, y, a, n, walk, link0, link, base, users);
      forall x: nat ensures x in Cut(walk.second, |walk.second|) <==> Killed(h, walk.second, link, x) {
        CutIs(walk.second, x);
      }
      WhoDies(g, y, a, n, h, walk, link);
      DifferentStay(g, y, a, n, h, walk, link0, link, users);
    }

    /** crypto_remove_spawns without a replacement: exactly what is built on a dies. */
    method RemoveUsers(a: nat) returns (list: seq<nat>)
      requires Valid() && Acyclic(View()) && a < |users|
      modifies this
      ensures Valid() && Removed(old(View()), a, View())
      ensures forall s: nat :: Affected(old(View()), s, a) ==> s < |link| && link[s] == None
      ensures forall x: nat :: x in dead <==> x in old(dead) || BuiltOn(old(View()), x, a)
      ensures forall x: nat :: x in list <==> BuiltOn(old(View()), x, a) && Goes(x, old(dead), old(hashed))
      ensures NoDup(list)
      ensures forall x: nat :: x in listed <==> x in old(listed) && x !in list
    {
      ghost var g := View();
      ghost var l;
      list, l := RemoveSpawns(a, None);
      FollowedAll(g, y, a);
      RemovedAll(g, a, l, old(link), link, users);
    }

    static const ENOENT := 2

    /** crypto_remove_alg: the algorithm and exactly what is built on it die. */
    method RemoveAlg(a: nat) returns (err: int, list: seq<nat>)
      requires Valid() && Acyclic(View()) && a < |users|
      modifies this
      ensures Valid() && err == if a in old(listed) then 0 else -ENOENT
      ensures err != 0 ==> unchanged(this) && list == []
      ensures err == 0 ==> Removed(old(View()), a, View())
      ensures err == 0 ==> forall s: nat :: Affected(old(View()), s, a) ==> s < |link| && link[s] == None
      ensures err == 0 ==> forall x: nat :: x in dead <==> x in old(dead) || x == a || BuiltOn(old(View()), x, a)
      ensures err == 0 ==> forall x: nat :: x in list <==> BuiltOn(old(View()), x, a) && Goes(x, old(dead), old(hashed))
      ensures err == 0 ==> NoDup(list) && forall x: nat :: x in listed <==> x in old(listed) && x != a && x !in list
    {
      if a !in listed { return -ENOENT, []; }
      dead := dead + {a};
      listed := listed - {a};
      assert !BuiltOn(View(), a, a);
      list := RemoveUsers(a);
      err := 0;
    }
  }

  /** A spawn on a whose bits differ stays on its list. */
  lemma {:induction false} DifferentStay(g: Graph, y: Types, a: nat, n: Option<nat>, h: Graph, l: Lists,
                                         link0: seq<Option<nat>>, link: seq<Option<nat>>, users: seq<seq<nat>>)
    requires a < |g.users| == |y.flags| && (n.Some? ==> n.value < |g.users| && n.value != a)
    requires g.Ok() && OneList(g) && h == Followed(g, y, a, n) && AllLinked(g, link0)
    requires Walked(h, a, n, l, link) && Untouched(l, link0, link) && Pointed(users, g.users, link)
    ensures forall s: nat :: s in g.users[a] && Differs(y, a, n, s) ==>
      s in users[a] && s < |link| && s < |link0| && link[s] == Some(a) && link0[s] == Some(a)
  {
    FollowedOk(g, y, a, n, h);
    assert PointedAt(users, g.users, link, a);
    forall s: nat | s in g.users[a] && Differs(y, a, n, s)
      ensures s in users[a] && s < |link| && s < |link0| && link[s] == Some(a) && link0[s] == Some(a)
    {
      assert s !in h.users[a];
      AffectedHere(g, h, a, a, s);
      WalkTakes(h, a, l, s);
      assert !l.Seen(s);
    }
  }

  /** A list holds exactly those of its spawns that still point at its algorithm. */
  ghost predicate Pointed(users: seq<seq<nat>>, users0: seq<seq<nat>>, link: seq<Option<nat>>) {
    |users| == |users0| && forall b: nat :: b < |users| ==> PointedAt(users, users0, link, b)
  }

  ghost predicate PointedAt(users: seq<seq<nat>>, users0: seq<seq<nat>>, link: seq<Option<nat>>, b: nat)
    requires b < |users| == |users0|
  {
    NoDup(users[b]) && forall s: nat :: s in users[b] <==> s in users0[b] && s < |link| && link[s] == Some(b)
  }

  /** With nothing put back, exactly the lists of a and of what is built on it are empty. */
  lemma {:induction false} RemovedAll(g: Graph, a: nat, l: Lists, link0: seq<Option<nat>>, link: seq<Option<nat>>,
                                      users: seq<seq<nat>>)
    requires OneList(g) && AllLinked(g, link0) && Walked(g, a, None, l, link) && Untouched(l, link0, link)
    requires Pointed(users, g.users, link)
    ensures Removed(g, a, Graph(g.inst, users))
    ensures forall s: nat :: Affected(g, s, a) ==> s < |link| && link[s] == None
    ensures forall x: nat :: Killed(g, l.second, link, x) <==> BuiltOn(g, x, a)
  {
    forall x: nat ensures Killed(g, l.second, link, x) <==> BuiltOn(g, x, a) { AllDie(g, a, l, link, x); }
    forall s: nat | Affected(g, s, a) ensures s < |link| && link[s] == None {
      WalkTakes(g, a, l, s);
      assert l.Seen(s) && KeptAt(g, None, link, s);
    }
    forall b: nat, s: nat | b < |users|
      ensures s in users[b] <==> s in g.users[b] && b != a && !BuiltOn(g, b, a)
    {
      assert PointedAt(users, g.users, link, b);
      if s in g.users[b] {
        AffectedHere(g, g, a, b, s);
        WalkTakes(g, a, l, s);
      }
    }
  }

  /** What the last loop needs of the lists the walk left. */
  lemma {:induction false} Prepared(g: Graph, h: Graph, y: Types, a: nat, n: Option<nat>, l: Lists,
                                    link: seq<Option<nat>>, base: seq<seq<nat>>)
    requires a < |g.users| == |y.flags| && (n.Some? ==> n.value < |g.users| && n.value != a)
    requires g.Ok() && OneList(g) && h == Followed(g, y, a, n) && Acyclic(h)
    requires Walked(h, a, n, l, link) && base == Base(g, y, a, n, l)
    ensures |base| == |g.users| && Clear(base, l.second)
    ensures forall k: nat :: k < |l.second| ==> SafeAt(h.inst, base, l.second, link, k)
  {
    forall b: nat | b < |base| ensures NoDup(base[b]) && forall s: nat :: s in base[b] ==> s !in l.second {
      BaseAt(g, h, y, a, n, l, base, b);
    }
    forall k: nat | k < |l.second| ensures SafeAt(h.inst, base, l.second, link, k) {
      SafeOrder(h, a, n, l, link, base, k);
    }
  }

  lemma {:induction false} FinalAt(g: Graph, h: Graph, y: Types, a: nat, n: Option<nat>, l: Lists,
                                   link0: seq<Option<nat>>, link: seq<Option<nat>>,
                                   base: seq<seq<nat>>, users: seq<seq<nat>>, b: nat)
    requires a < |g.users| == |y.flags| && (n.Some? ==> n.value < |g.users| && n.value != a)
    requires g.Ok() && OneList(g) && h == Followed(g, y, a, n) && AllLinked(g, link0)
    requires Walked(h, a, n, l, link) && base == Base(g, y, a, n, l) && Untouched(l, link0, link)
    requires b < |base| == |users| == |g.users| && BackAt(users, base, l.second, link, |l.second|, b)
    ensures PointedAt(users, g.users, link, b)
  {
    FollowedOk(g, y, a, n, h);
    BaseAt(g, h, y, a, n, l, base, b);
    assert l.second[..|l.second|] == l.second;
    forall s: nat ensures s in users[b] <==> s in g.users[b] && s < |link| && link[s] == Some(b) {
      if s in l.second {
        LinkValue(h, a, n, l, link, s);
      } else if s in g.users[b] {
        assert !l.Seen(s);
      }
    }
  }

  lemma {:induction false} FinalLists(g: Graph, h: Graph, y: Types, a: nat, n: Option<nat>, l: Lists,
                                      link0: seq<Option<nat>>, link: seq<Option<nat>>,
                                      base: seq<seq<nat>>, users: seq<seq<nat>>)
    requires a < |g.users| == |y.flags| && (n.Some? ==> n.value < |g.users| && n.value != a)
    requires g.Ok() && OneList(g) && h == Followed(g, y, a, n) && AllLinked(g, link0)
    requires Walked(h, a, n, l, link) && base == Base(g, y, a, n, l) && Untouched(l, link0, link)
    requires |base| == |g.users| && BackTo(users, base, l.second, link, |l.second|)
    ensures Pointed(users, g.users, link)
    ensures Graph(g.inst, users).Ok() && OneList(Graph(g.inst, users)) && AllLinked(Graph(g.inst, users), link)
  {
    forall b: nat | b < |users| ensures PointedAt(users, g.users, link, b) {
      assert BackAt(users, base, l.second, link, |l.second|, b);
      FinalAt(g, h, y, a, n, l, link0, link, base, users, b);
    }
    PointedOk(g, link, users);
  }

  lemma {:induction false} PointedOk(g: Graph, link: seq<Option<nat>>, users: seq<seq<nat>>)
    requires g.Ok() && OneList(g) && Pointed(users, g.users, link) && |link| == |g.inst|
    ensures Graph(g.inst, users).Ok() && OneList(Graph(g.inst, users)) && AllLinked(Graph(g.inst, users), link)
  {
    var h := Graph(g.inst, users);
    forall b: nat | b < |users| ensures NoDup(users[b]) && h.ListOk(users[b]) {
      assert PointedAt(users, g.users, link, b) && g.ListOk(g.users[b]);
      forall k | 0 <= k < |users[b]| ensures users[b][k] < |g.inst| { assert users[b][k] in g.users[b]; }
    }
    forall b: nat, s: nat | b < |users| && s in users[b] ensures s in g.users[b] && s < |link| && link[s] == Some(b) {
      assert PointedAt(users, g.users, link, b);
    }
    forall b: nat, c: nat, s: nat | b < |h.users| && c < |h.users| && s in h.users[b] && s in h.users[c]
      ensures b == c
    {
      assert s in users[b] && s in users[c];
      assert link[s] == Some(b) && link[s] == Some(c);
    }
    assert AllLinked(h, link) && h.Ok();
  }

  /** No list holds a spawn twice, or one that was taken. */
  ghost predicate Clear(users: seq<seq<nat>>, second: seq<nat>) {
    NoDup(second) && forall b: nat :: b < |users| ==> NoDup(users[b]) && forall s: nat :: s in users[b] ==> s !in second
  }

  ghost predicate BackAt(users: seq<seq<nat>>, users0: seq<seq<nat>>, second: seq<nat>, link: seq<Option<nat>>,
                         k: nat, b: nat)
    requires k <= |second| && b < |users| == |users0|
  {
    && NoDup(users[b])
    && forall s: nat :: s in users[b] <==> s in users0[b] || (s in second[..k] && s < |link| && link[s] == Some(b))
  }

  /** Of the first k spawns taken those that still point at an algorithm are back on its list. */
  ghost predicate BackTo(users: seq<seq<nat>>, users0: seq<seq<nat>>, second: seq<nat>, link: seq<Option<nat>>, k: nat)
    requires k <= |second|
  {
    |users| == |users0| && forall b: nat :: b < |users| ==> BackAt(users, users0, second, link, k, b)
  }

  lemma {:induction false} BackNone(users: seq<seq<nat>>, second: seq<nat>, link: seq<Option<nat>>)
    requires Clear(users, second)
    ensures BackTo(users, users, second, link, 0)
  {
    forall b: nat | b < |users| ensures BackAt(users, users, second, link, 0, b) { assert second[..0] == []; }
  }

  lemma {:induction false} BackNext(users: seq<seq<nat>>, users0: seq<seq<nat>>, second: seq<nat>,
                                    link: seq<Option<nat>>, k: nat)
    requires Clear(users0, second) && k < |second| && BackTo(users, users0, second, link, k)
    requires second[k] < |link| && (link[second[k]].Some? ==> link[second[k]].value < |users0|)
    ensures link[second[k]].None? ==> BackTo(users, users0, second, link, k + 1)
    ensures link[second[k]].Some? ==>
              var b := link[second[k]].value;
              BackTo(users[b := [second[k]] + users[b]], users0, second, link, k + 1)
  {
    var s := second[k];
    assert second[..k + 1] == second[..k] + [s];
    var next := if link[s].None? then users else users[link[s].value := [s] + users[link[s].value]];
    var k' := k + 1;
    forall b: nat | b < |users| ensures BackAt(next, users0, second, link, k', b) {
      assert BackAt(users, users0, second, link, k, b);
      assert s !in users0[b] && s !in second[..k];
    }
  }

  lemma {:induction false} StillEmpty(users: seq<seq<nat>>, users0: seq<seq<nat>>, second: seq<nat>,
                                      link: seq<Option<nat>>, k: nat, x: nat)
    requires k <= |second| && BackTo(users, users0, second, link, k) && x < |users0|
    requires users0[x] == [] && !BackBefore(second, link, k, x)
    ensures users[x] == []
  {
    assert BackAt(users, users0, second, link, k, x);
    SomeMember(users[x]);
  }

  lemma {:induction false} SomeMember(l: seq<nat>)
    ensures l == [] || exists s: nat :: s in l
  {
    if l != [] { assert l[0] in l; }
  }
}
