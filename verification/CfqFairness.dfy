/** Weighted fairness of CFQ's group scheduling over whole runs: groups come and
    go, weights change, and the group with the least vdisktime is served. */
module CfqFairness {

  import opened ServiceTree
  import opened Cfq

  datatype Event =
    | Join(id: nat)
    | Leave(id: nat)
    | Pick
    | Charge(id: nat, charge: nat)
    | Weigh(id: nat, weight: nat)

  /** A queue leaves a group that has one, a group with queues is charged, a weight is not zero. */
  predicate Enabled(s: Service, e: Event) {
    match e
    case Join(id) => id < |s.groups|
    case Leave(id) => id < |s.groups| && s.groups[id].nr >= 1
    case Pick => true
    case Charge(id, charge) => id < |s.groups| && s.groups[id].nr >= 1 && s.groups[id].weight > 0
    case Weigh(id, weight) => id < |s.groups| && weight > 0
  }

  function Next(s: Service, e: Event): Service
    requires Enabled(s, e)
  {
    match e
    case Join(id) => QueueAdd(s, id)
    case Leave(id) => QueueDel(s, id)
    case Pick => Choose(s).0
    case Charge(id, charge) => Served(s, id, charge)
    case Weigh(id, weight) => SetWeight(s, id, weight)
  }

  lemma {:induction false} NextOk(s: Service, e: Event, t: Service)
    requires Ok(s) && Enabled(s, e) && t == Next(s, e)
    ensures Ok(t) && |t.groups| == |s.groups| && t.delay == s.delay
    ensures s.min <= t.min
  {
    match e
    case Join(id) => QueueAddOk(s, id, t);
    case Leave(id) => QueueDelOk(s, id);
    case Pick => ChooseOk(s);
    case Charge(id, charge) =>
      assert GroupOk(s.groups[id]);
      ServedOk(s, id, charge, t);
    case Weigh(id, weight) => SetWeightOk(s, id, weight);
  }

  /** No group on the tree has used less. */
  ghost predicate Least(s: Service, id: nat) {
    id < |s.groups| && s.groups[id].onTree && forall n :: n in s.tree.nodes ==> s.groups[id].vd <= n.key
  }

  /** Only the least group is charged. */
  ghost predicate Right(s: Service, e: Event) { e.Charge? ==> Least(s, e.id) }

  ghost predicate IsRun(s: Service, es: seq<Event>)
    decreases |es|
  {
    es == [] || (Enabled(s, es[0]) && Right(s, es[0]) && IsRun(Next(s, es[0]), es[1..]))
  }

  ghost function After(s: Service, es: seq<Event>): Service
    requires IsRun(s, es)
    decreases |es|
  {
    if es == [] then s else After(Next(s, es[0]), es[1..])
  }

  /** min_vdisktime never decreases, total_weight is the sum over the tree, and a
      group is on the tree exactly while it has queues. */
  lemma {:induction false} RunOk(s: Service, es: seq<Event>)
    requires Ok(s) && IsRun(s, es)
    ensures Ok(After(s, es)) && s.min <= After(s, es).min
    decreases |es|
  {
    if es != [] {
      NextOk(s, es[0], Next(s, es[0]));
      RunOk(Next(s, es[0]), es[1..]);
    }
  }

  // ----- membership after each step -----

  lemma {:induction false} JoinNodes(s: Service, id: nat, n: Node)
    requires id < |s.groups|
    ensures n in QueueAdd(s, id).tree.nodes <==>
            n in s.tree.nodes || (!s.groups[id].onTree && n == Node(id, JoinAt(s)))
  {
    if !s.groups[id].onTree {
      var t := WithNr(s, id, s.groups[id].nr + 1);
      assert JoinAt(t) == JoinAt(s);
      AddMembers(t.tree, id, JoinAt(s), n);
    }
  }

  lemma {:induction false} LeaveNodes(s: Service, id: nat, n: Node)
    requires Ok(s) && Enabled(s, Leave(id))
    ensures n in QueueDel(s, id).tree.nodes ==> n in s.tree.nodes
    ensures n in s.tree.nodes && n.id != id ==> n in QueueDel(s, id).tree.nodes
  {
    EraseMembers(s.tree, id, n);
  }

  lemma {:induction false} ChargeTree(s: Service, id: nat, charge: nat, key: nat)
    requires Enabled(s, Charge(id, charge)) && s.groups[id].onTree
    requires key == s.groups[id].vd + Scaled(charge, s.groups[id].weight)
    ensures Served(s, id, charge).tree.nodes == Add(Erase(s.tree, id), id, key).nodes
  {
    MoveTree(s, id, key);
  }

  lemma {:induction false} MoveTree(s: Service, id: nat, key: nat)
    requires id < |s.groups| && s.groups[id].onTree
    ensures TreeAdd(TreeDel(s, id), id, key).tree == Add(Erase(s.tree, id), id, key)
  {
  }

  lemma {:induction false} ReplaceNodes(t: Tree, id: nat, key: nat, n: Node)
    requires Distinct(t.nodes)
    ensures n in Add(Erase(t, id), id, key).nodes <==> (n in t.nodes && n.id != id) || n == Node(id, key)
  {
    EraseMembers(t, id, n);
    AddMembers(Erase(t, id), id, key, n);
  }

  lemma {:induction false} ChargeNodes(s: Service, id: nat, charge: nat, key: nat, n: Node)
    requires Distinct(s.tree.nodes) && Enabled(s, Charge(id, charge)) && s.groups[id].onTree
    requires key == s.groups[id].vd + Scaled(charge, s.groups[id].weight)
    ensures n in Served(s, id, charge).tree.nodes <==> (n in s.tree.nodes && n.id != id) || n == Node(id, key)
  {
    ChargeTree(s, id, charge, key);
    ReplaceNodes(s.tree, id, key, n);
  }

  // ----- the spread -----

  /** No two groups on the tree are further apart than m. */
  ghost predicate Spread(s: Service, m: nat) {
    forall a, b :: a in s.tree.nodes && b in s.tree.nodes ==> a.key <= b.key + m
  }

  predicate Joins(s: Service, e: Event) { e.Join? && e.id < |s.groups| && !s.groups[e.id].onTree }

  /** CFQ_IDLE_DELAY for each group that joins. */
  ghost function Slack(s: Service, es: seq<Event>): nat
    requires IsRun(s, es)
    decreases |es|
  {
    if es == [] then 0 else (if Joins(s, es[0]) then s.delay else 0) + Slack(Next(s, es[0]), es[1..])
  }

  lemma {:induction false} LastIsMost(nodes: seq<Node>, a: Node)
    requires Sorted(nodes) && a in nodes
    ensures a.key <= nodes[|nodes| - 1].key && nodes[|nodes| - 1] in nodes
  {
    var k :| 0 <= k < |nodes| && nodes[k] == a;
  }

  lemma {:induction false} JoinSpread(s: Service, id: nat, m: nat)
    requires Ok(s) && id < |s.groups| && !s.groups[id].onTree && Spread(s, m)
    ensures Spread(QueueAdd(s, id), m + s.delay)
  {
    forall a, b | a in QueueAdd(s, id).tree.nodes && b in QueueAdd(s, id).tree.nodes
      ensures a.key <= b.key + m + s.delay
    {
      JoinNodes(s, id, a);
      JoinNodes(s, id, b);
      if a in s.tree.nodes { LastIsMost(s.tree.nodes, a); }
      if b in s.tree.nodes { LastIsMost(s.tree.nodes, b); }
    }
  }

  lemma {:induction false} ChargeSpread(s: Service, id: nat, charge: nat, m: nat)
    requires Ok(s) && Enabled(s, Charge(id, charge)) && Least(s, id) && Spread(s, m)
    requires Scaled(charge, s.groups[id].weight) <= m
    ensures Spread(Served(s, id, charge), m)
  {
    OnTreeKey(s, id);
    var t, key := Served(s, id, charge), s.groups[id].vd + Scaled(charge, s.groups[id].weight);
    forall a, b | a in t.tree.nodes && b in t.tree.nodes ensures a.key <= b.key + m {
      ChargeNodes(s, id, charge, key, a);
      ChargeNodes(s, id, charge, key, b);
    }
  }

  /** A charge in the run, scaled, is at most m. */
  predicate Small(s: Service, e: Event, m: nat)
    requires Enabled(s, e)
  {
    e.Charge? ==> Scaled(e.charge, s.groups[e.id].weight) <= m
  }

  ghost predicate AllSmall(s: Service, es: seq<Event>, m: nat)
    requires IsRun(s, es)
    decreases |es|
  {
    es == [] || (Small(s, es[0], m) && AllSmall(Next(s, es[0]), es[1..], m))
  }

  lemma {:induction false} SameSpread(s: Service, t: Service, m: nat)
    requires Spread(s, m) && forall n :: n in t.tree.nodes ==> n in s.tree.nodes
    ensures Spread(t, m)
  {
  }

  lemma {:induction false} NextSpread(s: Service, e: Event, m: nat, c: nat)
    requires Ok(s) && Enabled(s, e) && Right(s, e) && Spread(s, m) && c <= m && Small(s, e, c)
    ensures Spread(Next(s, e), m + if Joins(s, e) then s.delay else 0)
  {
    match e
    case Join(id) =>
      if !s.groups[id].onTree { JoinSpread(s, id, m); } else { SameSpread(s, QueueAdd(s, id), m); }
    case Leave(id) =>
      forall n | n in QueueDel(s, id).tree.nodes ensures n in s.tree.nodes { LeaveNodes(s, id, n); }
      SameSpread(s, QueueDel(s, id), m);
    case Pick => SameSpread(s, Choose(s).0, m);
    case Charge(id, charge) => ChargeSpread(s, id, charge, m);
    case Weigh(id, weight) => SameSpread(s, SetWeight(s, id, weight), m);
  }

  lemma {:induction false} Times(a: nat, b: nat, d: nat)
    ensures (a + b) * d == a * d + b * d
  {
  }

  /** With charges of at most m a spread of at most m stays so; each group that
      joins may widen it by CFQ_IDLE_DELAY. */
  lemma {:induction false} SpreadBound(s: Service, es: seq<Event>, m: nat, c: nat)
    requires Ok(s) && IsRun(s, es) && Spread(s, m) && c <= m && AllSmall(s, es, c)
    ensures Spread(After(s, es), m + Slack(s, es))
    decreases |es|
  {
    if es != [] {
      var t := Next(s, es[0]);
      NextOk(s, es[0], t);
      NextSpread(s, es[0], m, c);
      SpreadBound(t, es[1..], m + if Joins(s, es[0]) then s.delay else 0, c);
    }
  }

  // ----- service received -----

  ghost function Got(s: Service, es: seq<Event>, id: nat): nat
    requires IsRun(s, es)
    decreases |es|
  {
    if es == [] then 0
    else (if es[0].Charge? && es[0].id == id then Scaled(es[0].charge, s.groups[id].weight) else 0)
         + Got(Next(s, es[0]), es[1..], id)
  }

  /** The group is on the tree throughout. */
  ghost predicate Stays(s: Service, es: seq<Event>, id: nat)
    requires IsRun(s, es)
    decreases |es|
  {
    id < |s.groups| && s.groups[id].onTree && (es == [] || Stays(Next(s, es[0]), es[1..], id))
  }

  lemma {:induction false} NextVd(s: Service, e: Event, id: nat)
    requires Ok(s) && Enabled(s, e) && id < |s.groups| && s.groups[id].onTree
    requires id < |Next(s, e).groups| && Next(s, e).groups[id].onTree
    ensures Next(s, e).groups[id].vd ==
            s.groups[id].vd + if e.Charge? && e.id == id then Scaled(e.charge, s.groups[id].weight) else 0
  {
  }

  /** vdisktime records the scaled service. */
  lemma {:induction false} VdIsService(s: Service, es: seq<Event>, id: nat)
    requires Ok(s) && IsRun(s, es) && Stays(s, es, id)
    ensures id < |After(s, es).groups| && After(s, es).groups[id].onTree
    ensures After(s, es).groups[id].vd == s.groups[id].vd + Got(s, es, id)
    decreases |es|
  {
    if es != [] {
      NextOk(s, es[0], Next(s, es[0]));
      NextVd(s, es[0], id);
      VdIsService(Next(s, es[0]), es[1..], id);
    }
  }

  lemma {:induction false} Apart(s: Service, i: nat, j: nat, m: nat)
    requires Ok(s) && Spread(s, m) && i < |s.groups| && j < |s.groups| && s.groups[i].onTree && s.groups[j].onTree
    ensures s.groups[i].vd <= s.groups[j].vd + m
  {
    OnTreeKey(s, i);
    OnTreeKey(s, j);
  }

  /** Two groups that stay on the tree receive the same scaled service, up to twice
      the largest charge and the delays of the groups that joined, however long the
      run is. */
  lemma {:induction false} ScaledFair(s: Service, es: seq<Event>, m: nat, i: nat, j: nat)
    requires Ok(s) && IsRun(s, es) && Spread(s, m) && AllSmall(s, es, m) && Stays(s, es, i) && Stays(s, es, j)
    ensures Got(s, es, i) <= Got(s, es, j) + 2 * m + Slack(s, es)
  {
    RunOk(s, es);
    SpreadBound(s, es, m, m);
    VdIsService(s, es, i);
    VdIsService(s, es, j);
    Apart(s, j, i, m);
    Apart(After(s, es), i, j, m + Slack(s, es));
  }

  // ----- unscaled service, with constant weights -----

  function Work(es: seq<Event>, id: nat): nat {
    if es == [] then 0 else (if es[0].Charge? && es[0].id == id then es[0].charge else 0) + Work(es[1..], id)
  }

  function Turns(es: seq<Event>, id: nat): nat {
    if es == [] then 0 else (if es[0].Charge? && es[0].id == id then 1 else 0) + Turns(es[1..], id)
  }

  /** The weight is w and no other is asked for. */
  predicate Steady(s: Service, es: seq<Event>, id: nat, w: nat) {
    && id < |s.groups| && s.groups[id].weight == w && s.groups[id].wanted.None?
    && forall k :: 0 <= k < |es| ==> !(es[k].Weigh? && es[k].id == id)
  }

  lemma {:induction false} ScaledBounds(charge: nat, w: nat)
    requires w > 0
    ensures Scaled(charge, w) * w <= charge * SCALE <= (Scaled(charge, w) + 1) * w
  {
  }

  lemma {:induction false} NextSteady(s: Service, es: seq<Event>, id: nat, w: nat)
    requires es != [] && Enabled(s, es[0]) && Steady(s, es, id, w)
    ensures Steady(Next(s, es[0]), es[1..], id, w)
  {
    assert !(es[0].Weigh? && es[0].id == id);
    assert forall k :: 0 <= k < |es[1..]| ==> es[1..][k] == es[k + 1];
  }

  /** g units of vdisktime in n turns for that much work: scaling loses less than a unit a turn. */
  predicate Accounts(g: nat, n: nat, work: nat, w: nat) { g * w <= work * SCALE <= (g + n) * w }

  /** The same sums, multiplied out turn by turn. */
  function Price(e: Event, id: nat, w: nat): nat
    requires w > 0
  {
    if e.Charge? && e.id == id then Scaled(e.charge, w) * w else 0
  }

  function Paid(es: seq<Event>, id: nat, w: nat): nat
    requires w > 0
  {
    if es == [] then 0 else Price(es[0], id, w) + Paid(es[1..], id, w)
  }

  function Due(es: seq<Event>, id: nat): nat {
    if es == [] then 0 else (if es[0].Charge? && es[0].id == id then es[0].charge * SCALE else 0) + Due(es[1..], id)
  }

  function Rounding(es: seq<Event>, id: nat, w: nat): nat {
    if es == [] then 0 else (if es[0].Charge? && es[0].id == id then w else 0) + Rounding(es[1..], id, w)
  }

  lemma {:induction false} PaidBounds(es: seq<Event>, id: nat, w: nat)
    requires w > 0
    ensures Paid(es, id, w) <= Due(es, id) <= Paid(es, id, w) + Rounding(es, id, w)
  {
    if es != [] {
      PaidBounds(es[1..], id, w);
      if es[0].Charge? && es[0].id == id { ScaledBounds(es[0].charge, w); }
    }
  }

  lemma {:induction false} DueIs(es: seq<Event>, id: nat, w: nat)
    ensures Due(es, id) == Work(es, id) * SCALE && Rounding(es, id, w) == Turns(es, id) * w
  {
    if es != [] {
      DueIs(es[1..], id, w);
      Times(1, Turns(es[1..], id), w);
    }
  }

  /** The scaled service of a group whose weight does not change. */
  function Units(es: seq<Event>, id: nat, w: nat): nat
    requires w > 0
  {
    if es == [] then 0
    else (if es[0].Charge? && es[0].id == id then Scaled(es[0].charge, w) else 0) + Units(es[1..], id, w)
  }

  lemma {:induction false} GotIs(s: Service, es: seq<Event>, id: nat, w: nat)
    requires IsRun(s, es) && Steady(s, es, id, w) && w > 0
    ensures Got(s, es, id) == Units(es, id, w)
    decreases |es|
  {
    if es != [] {
      NextSteady(s, es, id, w);
      GotIs(Next(s, es[0]), es[1..], id, w);
    }
  }

  lemma {:induction false} PaidIs(es: seq<Event>, id: nat, w: nat)
    requires w > 0
    ensures Paid(es, id, w) == Units(es, id, w) * w
  {
    if es != [] {
      PaidIs(es[1..], id, w);
      if es[0].Charge? && es[0].id == id { Times(Scaled(es[0].charge, w), Units(es[1..], id, w), w); }
    }
  }

  lemma {:induction false} UnitBounds(es: seq<Event>, id: nat, w: nat)
    requires w > 0
    ensures Accounts(Units(es, id, w), Turns(es, id), Work(es, id), w)
  {
    PaidBounds(es, id, w);
    DueIs(es, id, w);
    PaidIs(es, id, w);
    Times(Units(es, id, w), Turns(es, id), w);
  }

  lemma {:induction false} Up(a: nat, b: nat, k: nat)
    requires a <= b
    ensures a * k <= b * k
  {
  }

  /** The work xi for weight wi exceeds its share of xj for weight wj by b at most. */
  predicate Proportional(xi: nat, wi: nat, xj: nat, wj: nat, b: nat) {
    xi * SCALE * wj <= xj * SCALE * wi + b * wi * wj
  }

  lemma {:induction false} Cross(gi: nat, gj: nat, b: nat, n: nat, xi: nat, xj: nat, wi: nat, wj: nat)
    requires xi <= (gi + n) * wi && gj * wj <= xj && gi <= gj + b
    ensures xi * wj <= xj * wi + (b + n) * wi * wj
  {
    Up(gi + n, gj + (b + n), wi);
    Up(xi, (gj + (b + n)) * wi, wj);
    Times(gj, b + n, wi);
    Times(gj * wi, (b + n) * wi, wj);
    Swap(gj, wi, wj);
    Up(gj * wj, xj, wi);
  }

  lemma {:induction false} Swap(a: nat, b: nat, c: nat)
    ensures a * b * c == a * c * b
  {
  }

  lemma {:induction false} CrossShares(gi: nat, ni: nat, xi: nat, wi: nat, gj: nat, nj: nat, xj: nat, wj: nat, b: nat)
    requires Accounts(gi, ni, xi, wi) && Accounts(gj, nj, xj, wj) && gi <= gj + b
    ensures Proportional(xi, wi, xj, wj, b + ni)
  {
    Cross(gi, gj, b, ni, xi * SCALE, xj * SCALE, wi, wj);
  }

  lemma {:induction false} UnitsFair(es: seq<Event>, i: nat, j: nat, wi: nat, wj: nat, b: nat, all: nat)
    requires wi > 0 && wj > 0 && Units(es, i, wi) <= Units(es, j, wj) + b && all == b + Turns(es, i)
    ensures Proportional(Work(es, i), wi, Work(es, j), wj, all)
  {
    UnitBounds(es, i, wi);
    UnitBounds(es, j, wj);
    CrossShares(Units(es, i, wi), Turns(es, i), Work(es, i), wi, Units(es, j, wj), Turns(es, j), Work(es, j), wj, b);
  }

  lemma {:induction false} UnitsClose(s: Service, es: seq<Event>, m: nat, i: nat, j: nat, wi: nat, wj: nat)
    requires Ok(s) && IsRun(s, es) && Spread(s, m) && AllSmall(s, es, m) && Stays(s, es, i) && Stays(s, es, j)
    requires Steady(s, es, i, wi) && Steady(s, es, j, wj) && wi > 0 && wj > 0
    ensures Units(es, i, wi) <= Units(es, j, wj) + (2 * m + Slack(s, es))
  {
    ScaledFair(s, es, m, i, j);
    GotIs(s, es, i, wi);
    GotIs(s, es, j, wj);
  }

  /** The service of two groups that stay is in proportion to their weights: over
      any run, service times the other's weight differs by a bound that grows only
      with the joins and by less than a unit of vdisktime a turn. */
  lemma {:induction false} WeightedFair(s: Service, es: seq<Event>, m: nat, i: nat, j: nat, wi: nat, wj: nat,
                                        b: nat)
    requires Ok(s) && IsRun(s, es) && Spread(s, m) && AllSmall(s, es, m) && Stays(s, es, i) && Stays(s, es, j)
    requires Steady(s, es, i, wi) && Steady(s, es, j, wj) && wi > 0 && wj > 0
    requires b == 2 * m + Slack(s, es) + Turns(es, i)
    ensures Proportional(Work(es, i), wi, Work(es, j), wj, b)
  {
    UnitsClose(s, es, m, i, j, wi, wj);
    UnitsFair(es, i, j, wi, wj, 2 * m + Slack(s, es), b);
  }

  lemma {:induction false} JoinLeast(s: Service, id: nat, g: nat)
    requires Ok(s) && Least(s, id) && g < |s.groups|
    ensures Least(QueueAdd(s, g), id)
  {
    JoinAfter(s, id);
    var t := QueueAdd(s, g);
    forall n | n in t.tree.nodes ensures s.groups[id].vd <= n.key { JoinNodes(s, g, n); }
    JoinSame(s, g, id);
  }

  lemma {:induction false} JoinAfter(s: Service, id: nat)
    requires Ok(s) && id < |s.groups| && s.groups[id].onTree
    ensures s.groups[id].vd <= JoinAt(s)
  {
    OnTreeKey(s, id);
    LastIsMost(s.tree.nodes, Node(id, s.groups[id].vd));
  }

  lemma {:induction false} JoinSame(s: Service, g: nat, id: nat)
    requires g < |s.groups| && id < |s.groups| && s.groups[id].onTree
    ensures |QueueAdd(s, g).groups| == |s.groups|
    ensures QueueAdd(s, g).groups[id].vd == s.groups[id].vd && QueueAdd(s, g).groups[id].onTree
  {
  }

  lemma {:induction false} LeaveLeast(s: Service, id: nat, g: nat)
    requires Ok(s) && Least(s, id) && Enabled(s, Leave(g)) && !(g == id && s.groups[id].nr == 1)
    ensures Least(QueueDel(s, g), id)
  {
    forall n | n in QueueDel(s, g).tree.nodes ensures s.groups[id].vd <= n.key { LeaveNodes(s, g, n); }
  }

  /** The group that was picked is still the least when it is charged: what happens
      in between, short of its leaving, does not put another one before it. */
  lemma {:induction false} PickedStaysLeast(s: Service, e: Event, id: nat)
    requires Ok(s) && Enabled(s, e) && Least(s, id) && !e.Charge?
    requires !(e == Leave(id) && s.groups[id].nr == 1)
    ensures Least(Next(s, e), id)
  {
    match e
    case Join(g) => JoinLeast(s, id, g);
    case Leave(g) => LeaveLeast(s, id, g);
    case Pick =>
    case Weigh(g, w) =>
  }
}
