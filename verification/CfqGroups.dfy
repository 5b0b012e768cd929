/** The weight tree of CFQ groups: activation, deactivation and compounded fractions, as in
    block/cfq-iosched.c.

    Groups are numbered in creation order, so a parent has a smaller number than its children and
    group 0 is the root.  `nr_active` and `children_weight` are a group's load.
 */
module CfqGroups {
  import opened Common

  /** `newWeight` and `newLeafWeight` are 0 when no change is pending. */
  datatype Group = Group(nrActive: int, childrenWeight: int, weight: nat, newWeight: nat,
                         leafWeight: nat, newLeafWeight: nat, vfraction: nat)

  type Groups = seq<Group>
  type Parents = seq<nat>

  /** A count of active members and the sum of their weights. */
  datatype Load = Load(nr: int, weight: int)

  function Plus(a: Load, b: Load): (r: Load) {
    Load(a.nr + b.nr, a.weight + b.weight)
  }

  predicate Tree(p: Parents, gs: Groups) {
    |p| == |gs| && |gs| > 0 && forall i :: 0 < i < |p| ==> p[i] < i
  }

  /** Weights are at least one: every writer checks a positive minimum. */
  predicate Weighted(gs: Groups) {
    forall i :: 0 <= i < |gs| ==> gs[i].weight > 0 && gs[i].leafWeight > 0
  }

  /** Groups with something active in them, the root aside. */
  function Active(gs: Groups): set<nat> {
    set i: nat | 0 < i < |gs| && gs[i].nrActive > 0
  }

  function LoadOf(g: Group): Load {
    Load(g.nrActive, g.childrenWeight)
  }

  /** The load the members of `act` below `n` put on their parent `j`. */
  function Kids(p: Parents, gs: Groups, act: set<nat>, j: nat, n: nat): Load
    requires n <= |gs| && |p| == |gs|
  {
    if n <= 1 then Load(0, 0)
    else
      var k := Kids(p, gs, act, j, n - 1);
      if n - 1 in act && p[n - 1] == j then Plus(k, Load(1, gs[n - 1].weight)) else k
  }

  /** The load of a group on itself, through its own tasks. */
  function Own(gs: Groups, tree: set<nat>, j: nat): Load
    requires j < |gs|
  {
    if j in tree then Load(1, gs[j].leafWeight) else Load(0, 0)
  }

  /** What group `j` should record when the members of `act` count with their parents. */
  function Due(p: Parents, gs: Groups, tree: set<nat>, act: set<nat>, j: nat): Load
    requires j < |gs| && |p| == |gs|
  {
    Plus(Own(gs, tree, j), Kids(p, gs, act, j, |gs|))
  }

  predicate Balanced(p: Parents, gs: Groups, tree: set<nat>, act: set<nat>)
    requires |p| == |gs|
  {
    forall j :: 0 <= j < |gs| ==> LoadOf(gs[j]) == Due(p, gs, tree, act, j)
  }

  /** Every group records itself, if on the service tree, and its active children. */
  predicate Inv(p: Parents, gs: Groups, tree: set<nat>) {
    && Tree(p, gs) && Weighted(gs)
    && (forall g :: g in tree ==> g < |gs|)
    && Balanced(p, gs, tree, Active(gs))
  }

  // ---------------------------------------------------------------- sums over children

  /** Kids looks only at the weights of members of `act`. */
  lemma {:induction false} KidsSame(p: Parents, gs: Groups, gs': Groups, act: set<nat>, j: nat, n: nat)
    requires n <= |gs| == |gs'| == |p|
    requires forall c :: 0 <= c < |gs| && c in act ==> gs'[c].weight == gs[c].weight
    ensures Kids(p, gs', act, j, n) == Kids(p, gs, act, j, n)
  {
    if n > 1 {
      KidsSame(p, gs, gs', act, j, n - 1);
    }
  }

  /** Counting one more member adds its weight at its parent, and nowhere else. */
  lemma {:induction false} KidsAdd(p: Parents, gs: Groups, act: set<nat>, c: nat, j: nat, n: nat)
    requires n <= |gs| == |p| && c !in act && 0 < c
    ensures Kids(p, gs, act + {c}, j, n) ==
      if c < n && p[c] == j then Plus(Kids(p, gs, act, j, n), Load(1, gs[c].weight)) else Kids(p, gs, act, j, n)
  {
    if n > 1 {
      KidsAdd(p, gs, act, c, j, n - 1);
    }
  }

  lemma {:induction false} KidsNatural(p: Parents, gs: Groups, act: set<nat>, j: nat, n: nat)
    requires n <= |gs| == |p|
    ensures var k := Kids(p, gs, act, j, n); k.nr >= 0 && k.weight >= 0
  {
    if n > 1 {
      KidsNatural(p, gs, act, j, n - 1);
    }
  }

  lemma {:induction false} KidsZero(p: Parents, gs: Groups, act: set<nat>, j: nat, n: nat)
    requires n <= |gs| == |p| && Kids(p, gs, act, j, n).nr == 0
    ensures Kids(p, gs, act, j, n).weight == 0
  {
    if n > 1 {
      KidsNatural(p, gs, act, j, n - 1);
      KidsZero(p, gs, act, j, n - 1);
    }
  }

  lemma {:induction false} KidsMember(p: Parents, gs: Groups, act: set<nat>, c: nat, n: nat)
    requires n <= |gs| == |p| && 0 < c < n && c in act
    ensures var k := Kids(p, gs, act, p[c], n); k.nr >= 1 && k.weight >= gs[c].weight
  {
    KidsNatural(p, gs, act, p[c], n - 1);
    if c < n - 1 {
      KidsMember(p, gs, act, c, n - 1);
    }
  }

  // ---------------------------------------------------------------- activation

  function UpdatedWeight(g: Group): Group {
    if g.newWeight != 0 then g.(weight := g.newWeight, newWeight := 0) else g
  }

  function UpdatedLeafWeight(g: Group): Group {
    if g.newLeafWeight != 0 then g.(leafWeight := g.newLeafWeight, newLeafWeight := 0) else g
  }

  function Charged(g: Group, w: nat): Group {
    g.(nrActive := g.nrActive + 1, childrenWeight := g.childrenWeight + w)
  }

  function Released(g: Group, w: nat): Group {
    g.(nrActive := g.nrActive - 1, childrenWeight := g.childrenWeight - w)
  }

  /** One turn of the activation loop: `pos` starts to count with its parent. */
  function Raised(p: Parents, gs: Groups, pos: nat): (r: Groups)
    requires Tree(p, gs) && 0 < pos < |gs|
    ensures |r| == |gs|
  {
    var gs1 := gs[pos := UpdatedWeight(gs[pos])];
    gs1[p[pos] := Charged(gs1[p[pos]], gs1[pos].weight)]
  }

  /** The rest of the activation loop. */
  function Rise(p: Parents, gs: Groups, pos: nat, propagate: bool): (r: Groups)
    requires Tree(p, gs) && pos < |gs|
    ensures |r| == |gs|
    decreases pos
  {
    if pos == 0 || !propagate then gs
    else Rise(p, Raised(p, gs, pos), p[pos], gs[p[pos]].nrActive == 0)
  }

  /** What the loop knows: all is balanced, except that `pos` may not count with its parent yet. */
  predicate Rising(p: Parents, gs: Groups, tree: set<nat>, act: set<nat>, pos: nat, propagate: bool) {
    && Tree(p, gs) && Weighted(gs) && pos < |gs|
    && (forall g :: g in tree ==> g < |gs|)
    && gs[pos].nrActive > 0
    && Balanced(p, gs, tree, act)
    && (if propagate && pos > 0 then pos !in act && Active(gs) == act + {pos} else Active(gs) == act)
  }

  lemma RaisedActive(p: Parents, gs: Groups, act: set<nat>, pos: nat)
    requires Tree(p, gs) && 0 < pos < |gs| && Active(gs) == act + {pos} && gs[p[pos]].nrActive >= 0
    ensures Active(Raised(p, gs, pos)) ==
      if gs[p[pos]].nrActive == 0 && p[pos] > 0 then act + {pos} + {p[pos]} else act + {pos}
  {
    var r := Raised(p, gs, pos);
    forall i | 0 <= i < |gs| && i != p[pos] ensures r[i].nrActive == gs[i].nrActive {}
  }

  lemma RaisedLoad(p: Parents, gs: Groups, tree: set<nat>, act: set<nat>, pos: nat, j: nat)
    requires Tree(p, gs) && 0 < pos < |gs| && j < |gs| && pos !in act
    requires LoadOf(gs[j]) == Due(p, gs, tree, act, j)
    ensures LoadOf(Raised(p, gs, pos)[j]) == Due(p, Raised(p, gs, pos), tree, act + {pos}, j)
  {
    var r := Raised(p, gs, pos);
    KidsSame(p, gs, r, act, j, |gs|);
    KidsAdd(p, r, act, pos, j, |gs|);
  }

  lemma DueNatural(p: Parents, gs: Groups, tree: set<nat>, act: set<nat>, j: nat)
    requires j < |gs| && |p| == |gs|
    ensures Due(p, gs, tree, act, j).nr >= 0 && Due(p, gs, tree, act, j).weight >= 0
    ensures Due(p, gs, tree, act, j).nr == 0 ==> Due(p, gs, tree, act, j).weight == 0
  {
    KidsNatural(p, gs, act, j, |gs|);
    if Kids(p, gs, act, j, |gs|).nr == 0 {
      KidsZero(p, gs, act, j, |gs|);
    }
  }

  lemma RaisedKeeps(p: Parents, gs: Groups, tree: set<nat>, act: set<nat>, pos: nat)
    requires Rising(p, gs, tree, act, pos, true) && pos > 0
    ensures Rising(p, Raised(p, gs, pos), tree, act + {pos}, p[pos], gs[p[pos]].nrActive == 0)
  {
    var r := Raised(p, gs, pos);
    forall j | 0 <= j < |gs| ensures LoadOf(r[j]) == Due(p, r, tree, act + {pos}, j) {
      RaisedLoad(p, gs, tree, act, pos, j);
    }
    DueNatural(p, gs, tree, act, p[pos]);
    RaisedActive(p, gs, act, pos);
  }

  lemma {:induction false} RiseKeeps(p: Parents, gs: Groups, tree: set<nat>, act: set<nat>, pos: nat, propagate: bool)
    requires Rising(p, gs, tree, act, pos, propagate)
    ensures Inv(p, Rise(p, gs, pos, propagate), tree)
    decreases pos
  {
    if pos > 0 && propagate {
      RaisedKeeps(p, gs, tree, act, pos);
      RiseKeeps(p, Raised(p, gs, pos), tree, act + {pos}, p[pos], gs[p[pos]].nrActive == 0);
    }
  }

  /** What precedes the loop: the group joins the tree with its current leaf weight. */
  function Entered(gs: Groups, g: nat): (r: Groups)
    requires g < |gs|
    ensures |r| == |gs|
  {
    var u := UpdatedLeafWeight(gs[g]);
    gs[g := Charged(u, u.leafWeight)]
  }

  lemma EnteredLoad(p: Parents, gs: Groups, tree: set<nat>, act: set<nat>, g: nat, j: nat)
    requires Tree(p, gs) && g < |gs| && j < |gs| && g !in tree
    requires LoadOf(gs[j]) == Due(p, gs, tree, act, j)
    ensures LoadOf(Entered(gs, g)[j]) == Due(p, Entered(gs, g), tree + {g}, act, j)
  {
    KidsSame(p, gs, Entered(gs, g), act, j, |gs|);
    EnteredOwn(gs, tree, g, j);
  }

  lemma EnteredOwn(gs: Groups, tree: set<nat>, g: nat, j: nat)
    requires g < |gs| && j < |gs| && g !in tree
    ensures var r := Entered(gs, g);
      if j == g then LoadOf(r[j]) == Plus(LoadOf(gs[j]), Own(r, tree + {g}, j)) && Own(gs, tree, j) == Load(0, 0)
      else r[j] == gs[j] && Own(r, tree + {g}, j) == Own(gs, tree, j)
  {
  }

  lemma EnteredActive(gs: Groups, g: nat)
    requires g < |gs| && gs[g].nrActive >= 0
    ensures Active(Entered(gs, g)) == if gs[g].nrActive == 0 && g > 0 then Active(gs) + {g} else Active(gs)
  {
    forall i | 0 <= i < |gs| && i != g ensures Entered(gs, g)[i] == gs[i] {}
  }

  lemma EnteredBalanced(p: Parents, gs: Groups, tree: set<nat>, act: set<nat>, g: nat)
    requires Tree(p, gs) && Balanced(p, gs, tree, act) && g < |gs| && g !in tree
    ensures Balanced(p, Entered(gs, g), tree + {g}, act) && gs[g].nrActive >= 0 && gs[g].childrenWeight >= 0
  {
    var r := Entered(gs, g);
    forall j | 0 <= j < |gs| ensures LoadOf(r[j]) == Due(p, r, tree + {g}, act, j) {
      EnteredLoad(p, gs, tree, act, g, j);
    }
    DueNatural(p, gs, tree, act, g);
    assert LoadOf(gs[g]) == Due(p, gs, tree, act, g);
  }

  lemma EnteredKeeps(p: Parents, gs: Groups, tree: set<nat>, g: nat)
    requires Inv(p, gs, tree) && g < |gs| && g !in tree
    ensures Rising(p, Entered(gs, g), tree + {g}, Active(gs), g, gs[g].nrActive == 0)
  {
    EnteredBalanced(p, gs, tree, Active(gs), g);
    EnteredActive(gs, g);
  }

  function WithFraction(gs: Groups, g: nat, v: nat): (r: Groups)
    requires g < |gs|
    ensures |r| == |gs|
  {
    gs[g := gs[g].(vfraction := v)]
  }

  /** Groups that agree on everything the loads depend on. */
  predicate Alike(a: Group, b: Group) {
    LoadOf(a) == LoadOf(b) && a.weight == b.weight && a.leafWeight == b.leafWeight
  }

  lemma AlikeActive(gs: Groups, gs': Groups)
    requires |gs| == |gs'| && forall i :: 0 <= i < |gs| ==> Alike(gs[i], gs'[i])
    ensures Active(gs') == Active(gs)
  {
    forall i | 0 <= i < |gs| ensures gs'[i].nrActive == gs[i].nrActive {
      assert Alike(gs[i], gs'[i]);
    }
  }

  lemma AlikeBalanced(p: Parents, gs: Groups, gs': Groups, tree: set<nat>, act: set<nat>)
    requires |gs| == |gs'| == |p| && forall i :: 0 <= i < |gs| ==> Alike(gs[i], gs'[i])
    requires Balanced(p, gs, tree, act)
    ensures Balanced(p, gs', tree, act)
  {
    forall j | 0 <= j < |gs| ensures LoadOf(gs'[j]) == Due(p, gs', tree, act, j) {
      assert LoadOf(gs[j]) == Due(p, gs, tree, act, j) && Alike(gs[j], gs'[j]);
      KidsSame(p, gs, gs', act, j, |gs|);
    }
  }

  /** No load depends on a fraction or on a pending weight. */
  lemma AlikeKeeps(p: Parents, gs: Groups, gs': Groups, tree: set<nat>)
    requires Inv(p, gs, tree) && |gs| == |gs'| && forall i :: 0 <= i < |gs| ==> Alike(gs[i], gs'[i])
    ensures Inv(p, gs', tree)
  {
    AlikeActive(gs, gs');
    AlikeBalanced(p, gs, gs', tree, Active(gs));
  }

  // ---------------------------------------------------------------- deactivation

  /** One turn of the deactivation loop below the root: `pos` stops counting with its parent. */
  function Lowered(p: Parents, gs: Groups, pos: nat): (r: Groups)
    requires Tree(p, gs) && 0 < pos < |gs|
    ensures |r| == |gs|
  {
    var gs1 := gs[pos := gs[pos].(vfraction := 0)];
    gs1[p[pos] := Released(gs1[p[pos]], gs1[pos].weight)]
  }

  /** The rest of the deactivation loop. */
  function Sink(p: Parents, gs: Groups, pos: nat, propagate: bool): (r: Groups)
    requires Tree(p, gs) && pos < |gs|
    ensures |r| == |gs|
    decreases pos
  {
    if !propagate then gs
    else if pos == 0 then WithFraction(gs, 0, 0)
    else
      var r := Lowered(p, gs, pos);
      Sink(p, r, p[pos], r[p[pos]].nrActive == 0)
  }

  /** What the loop knows: all is balanced, except that `pos` may still count with its parent. */
  predicate Sinking(p: Parents, gs: Groups, tree: set<nat>, act: set<nat>, pos: nat, propagate: bool) {
    && Tree(p, gs) && Weighted(gs) && pos < |gs|
    && (forall g :: g in tree ==> g < |gs|)
    && propagate == (gs[pos].nrActive == 0)
    && Balanced(p, gs, tree, act)
    && (if propagate && pos > 0 then pos in act && Active(gs) == act - {pos} else Active(gs) == act)
  }

  lemma LoweredLoad(p: Parents, gs: Groups, tree: set<nat>, act: set<nat>, pos: nat, j: nat)
    requires Tree(p, gs) && 0 < pos < |gs| && j < |gs| && pos in act
    requires LoadOf(gs[j]) == Due(p, gs, tree, act, j)
    ensures LoadOf(Lowered(p, gs, pos)[j]) == Due(p, Lowered(p, gs, pos), tree, act - {pos}, j)
  {
    var r := Lowered(p, gs, pos);
    KidsSame(p, gs, r, act, j, |gs|);
    assert act == (act - {pos}) + {pos};
    KidsAdd(p, r, act - {pos}, pos, j, |gs|);
  }

  lemma LoweredActive(p: Parents, gs: Groups, act: set<nat>, pos: nat)
    requires Tree(p, gs) && 0 < pos < |gs| && Active(gs) == act && gs[p[pos]].nrActive >= 1
    ensures Active(Lowered(p, gs, pos)) == if gs[p[pos]].nrActive == 1 then act - {p[pos]} else act
  {
    var r := Lowered(p, gs, pos);
    forall i | 0 <= i < |gs| && i != p[pos] ensures r[i].nrActive == gs[i].nrActive {}
  }

  lemma LoweredKeeps(p: Parents, gs: Groups, tree: set<nat>, act: set<nat>, pos: nat)
    requires Sinking(p, gs, tree, act, pos, true) && pos > 0
    ensures var r := Lowered(p, gs, pos); Sinking(p, r, tree, act - {pos}, p[pos], r[p[pos]].nrActive == 0)
  {
    var r := Lowered(p, gs, pos);
    forall j | 0 <= j < |gs| ensures LoadOf(r[j]) == Due(p, r, tree, act - {pos}, j) {
      LoweredLoad(p, gs, tree, act, pos, j);
    }
    KidsMember(p, gs, act, pos, |gs|);
    assert LoadOf(gs[p[pos]]) == Due(p, gs, tree, act, p[pos]);
    LoweredActive(p, gs, act - {pos}, pos);
  }

  lemma {:induction false} SinkKeeps(p: Parents, gs: Groups, tree: set<nat>, act: set<nat>, pos: nat, propagate: bool)
    requires Sinking(p, gs, tree, act, pos, propagate)
    ensures Inv(p, Sink(p, gs, pos, propagate), tree)
    decreases pos
  {
    if propagate {
      if pos == 0 {
        AlikeKeeps(p, gs, WithFraction(gs, 0, 0), tree);
      } else {
        LoweredKeeps(p, gs, tree, act, pos);
        var r := Lowered(p, gs, pos);
        SinkKeeps(p, r, tree, act - {pos}, p[pos], r[p[pos]].nrActive == 0);
      }
    }
  }

  /** What precedes the loop: the group stops counting with itself. */
  function Left(gs: Groups, g: nat): (r: Groups)
    requires g < |gs|
    ensures |r| == |gs|
  {
    gs[g := Released(gs[g], gs[g].leafWeight)]
  }

  lemma LeftLoad(p: Parents, gs: Groups, tree: set<nat>, act: set<nat>, g: nat, j: nat)
    requires Tree(p, gs) && g < |gs| && j < |gs| && g in tree
    requires LoadOf(gs[j]) == Due(p, gs, tree, act, j)
    ensures LoadOf(Left(gs, g)[j]) == Due(p, Left(gs, g), tree - {g}, act, j)
  {
    KidsSame(p, gs, Left(gs, g), act, j, |gs|);
    LeftOwn(gs, tree, g, j);
  }

  lemma LeftOwn(gs: Groups, tree: set<nat>, g: nat, j: nat)
    requires g < |gs| && j < |gs| && g in tree
    ensures var r := Left(gs, g);
      if j == g then LoadOf(gs[j]) == Plus(LoadOf(r[j]), Own(gs, tree, j)) && Own(r, tree - {g}, j) == Load(0, 0)
      else r[j] == gs[j] && Own(r, tree - {g}, j) == Own(gs, tree, j)
  {
  }

  lemma LeftKeeps(p: Parents, gs: Groups, tree: set<nat>, g: nat)
    requires Inv(p, gs, tree) && g in tree
    ensures Sinking(p, Left(gs, g), tree - {g}, Active(gs), g, Left(gs, g)[g].nrActive == 0)
  {
    var r := Left(gs, g);
    forall j | 0 <= j < |gs| ensures LoadOf(r[j]) == Due(p, r, tree - {g}, Active(gs), j) {
      LeftLoad(p, gs, tree, Active(gs), g, j);
    }
    KidsNatural(p, gs, Active(gs), g, |gs|);
    assert LoadOf(gs[g]) == Due(p, gs, tree, Active(gs), g);
    forall i | 0 <= i < |gs| && i != g ensures r[i] == gs[i] {}
  }

  /** The WARN_ON_ONCE of the loop cannot fire: a group with nothing active has no weight left. */
  lemma IdleWeighsNothing(p: Parents, gs: Groups, tree: set<nat>, act: set<nat>, pos: nat)
    requires Sinking(p, gs, tree, act, pos, true)
    ensures gs[pos].childrenWeight == 0
  {
    DueNatural(p, gs, tree, act, pos);
    assert LoadOf(gs[pos]) == Due(p, gs, tree, act, pos);
  }

  // ---------------------------------------------------------------- fractions

  /** One step of the compounding, in fixed point: divides by a children_weight. */
  function Scaled(v: nat, w: nat, c: int): nat {
    if c > 0 then v * w / c else 0
  }

  /** The compounding from group `i` to the root. */
  function Up(p: Parents, gs: Groups, i: nat, v: nat): nat
    requires Tree(p, gs) && i < |gs|
    decreases i
  {
    if i == 0 then v else Up(p, gs, p[i], Scaled(v, gs[i].weight, gs[p[i]].childrenWeight))
  }

  const ONE: nat := 4096

  /** The share of the device the tasks of `g` are entitled to, before the clamp to 1. */
  function Fraction(p: Parents, gs: Groups, g: nat): nat
    requires Tree(p, gs) && g < |gs|
  {
    Up(p, gs, g, Scaled(ONE, gs[g].leafWeight, gs[g].childrenWeight))
  }

  function FractionSum(p: Parents, gs: Groups, tree: set<nat>, n: nat): nat
    requires Tree(p, gs) && n <= |gs|
  {
    if n == 0 then 0 else FractionSum(p, gs, tree, n - 1) + if n - 1 in tree then Fraction(p, gs, n - 1) else 0
  }

  // The same quantities without rounding.

  function Part(w: int, c: int): real {
    if c > 0 then w as real / c as real else 0.0
  }

  lemma PartAdds(a: int, b: int, c: int)
    ensures Part(a, c) + Part(b, c) == Part(a + b, c)
  {
  }

  lemma PartWhole(c: int)
    requires c > 0
    ensures Part(c, c) == 1.0
  {
  }

  lemma PartNatural(w: nat, c: int)
    ensures Part(w, c) >= 0.0
  {
  }

  lemma ScaledFloor(v: nat, w: nat, c: int)
    ensures Scaled(v, w, c) as real <= v as real * Part(w, c)
  {
    if c > 0 {
      var q := v * w / c;
      assert q * c <= v * w;
      RealProduct(q, c);
      RealProduct(v, w);
      var cr := c as real;
      assert q as real * cr <= v as real * w as real;
      DivideBoth(q as real, v as real * w as real, cr);
      DivideProduct(v as real, w as real, cr);
    }
  }

  lemma RealProduct(a: int, b: int)
    ensures (a * b) as real == a as real * b as real
  {
  }

  lemma DivideBoth(q: real, x: real, c: real)
    requires c > 0.0 && q * c <= x
    ensures q <= x / c
  {
    assert x / c - q == (x - q * c) / c;
  }

  lemma DivideProduct(v: real, w: real, c: real)
    requires c > 0.0
    ensures v * w / c == v * (w / c)
  {
  }

  function Share(p: Parents, gs: Groups, i: nat): real
    requires Tree(p, gs) && i < |gs|
    decreases i
  {
    if i == 0 then 1.0 else Share(p, gs, p[i]) * Part(gs[i].weight, gs[p[i]].childrenWeight)
  }

  function LeafShare(p: Parents, gs: Groups, g: nat): real
    requires Tree(p, gs) && g < |gs|
  {
    Share(p, gs, g) * Part(gs[g].leafWeight, gs[g].childrenWeight)
  }

  lemma MonotoneProduct(a: real, b: real, s: real)
    requires a <= b && s >= 0.0
    ensures a * s <= b * s
  {
  }

  lemma {:induction false} ShareNatural(p: Parents, gs: Groups, i: nat)
    requires Tree(p, gs) && i < |gs|
    ensures Share(p, gs, i) >= 0.0
    decreases i
  {
    if i > 0 {
      ShareNatural(p, gs, p[i]);
      PartNatural(gs[i].weight, gs[p[i]].childrenWeight);
    }
  }

  /** Rounding at every level only loses. */
  lemma {:induction false} UpFloor(p: Parents, gs: Groups, i: nat, v: nat)
    requires Tree(p, gs) && i < |gs|
    ensures Up(p, gs, i, v) as real <= v as real * Share(p, gs, i)
    decreases i
  {
    if i > 0 {
      var (w, c) := (gs[i].weight, gs[p[i]].childrenWeight);
      UpFloor(p, gs, p[i], Scaled(v, w, c));
      ShareNatural(p, gs, p[i]);
      ScaledFloor(v, w, c);
      MonotoneProduct(Scaled(v, w, c) as real, v as real * Part(w, c), Share(p, gs, p[i]));
      assert v as real * Part(w, c) * Share(p, gs, p[i]) == v as real * (Share(p, gs, p[i]) * Part(w, c));
    }
  }

  lemma FractionFloor(p: Parents, gs: Groups, g: nat)
    requires Tree(p, gs) && g < |gs|
    ensures Fraction(p, gs, g) as real <= 4096.0 * LeafShare(p, gs, g)
  {
    var (w, c) := (gs[g].leafWeight, gs[g].childrenWeight);
    UpFloor(p, gs, g, Scaled(ONE, w, c));
    ScaledFloor(ONE, w, c);
    ShareNatural(p, gs, g);
    MonotoneProduct(Scaled(ONE, w, c) as real, 4096.0 * Part(w, c), Share(p, gs, g));
  }

  function LeafSum(p: Parents, gs: Groups, tree: set<nat>, n: nat): real
    requires Tree(p, gs) && n <= |gs|
  {
    if n == 0 then 0.0 else LeafSum(p, gs, tree, n - 1) + if n - 1 in tree then LeafShare(p, gs, n - 1) else 0.0
  }

  lemma {:induction false} SumFloor(p: Parents, gs: Groups, tree: set<nat>, n: nat)
    requires Tree(p, gs) && n <= |gs|
    ensures FractionSum(p, gs, tree, n) as real <= 4096.0 * LeafSum(p, gs, tree, n)
  {
    if n > 0 {
      SumFloor(p, gs, tree, n - 1);
      FractionFloor(p, gs, n - 1);
    }
  }

  /** Shares of the groups below `n` that are cut off by level `k`: not yet handed to groups below `k`. */
  function Frontier(p: Parents, gs: Groups, act: set<nat>, k: nat, n: nat): real
    requires Tree(p, gs) && n <= |gs|
  {
    if n == 0 then 0.0
    else
      var share := if n - 1 >= k && (n - 1 == 0 || (n - 1 in act && p[n - 1] < k)) then Share(p, gs, n - 1) else 0.0;
      Frontier(p, gs, act, k, n - 1) + share
  }

  function ChildShares(p: Parents, gs: Groups, act: set<nat>, k: nat, n: nat): real
    requires Tree(p, gs) && n <= |gs|
  {
    if n <= 1 then 0.0
    else ChildShares(p, gs, act, k, n - 1) + if n - 1 in act && p[n - 1] == k then Share(p, gs, n - 1) else 0.0
  }

  lemma {:induction false} FrontierEnds(p: Parents, gs: Groups, act: set<nat>, k: nat, n: nat)
    requires Tree(p, gs) && n <= |gs| && n <= k
    ensures Frontier(p, gs, act, k, n) == 0.0
  {
    if n > 0 {
      FrontierEnds(p, gs, act, k, n - 1);
    }
  }

  lemma {:induction false} FrontierStarts(p: Parents, gs: Groups, act: set<nat>, n: nat)
    requires Tree(p, gs) && 0 < n <= |gs|
    ensures Frontier(p, gs, act, 0, n) == 1.0
  {
    if n > 1 {
      FrontierStarts(p, gs, act, n - 1);
    }
  }

  /** Passing level `k` replaces its share by those of its active children. */
  lemma {:induction false} FrontierMoves(p: Parents, gs: Groups, act: set<nat>, k: nat, n: nat)
    requires Tree(p, gs) && n <= |gs|
    ensures Frontier(p, gs, act, k + 1, n) + (if k < n && (k == 0 || k in act) then Share(p, gs, k) else 0.0)
         == Frontier(p, gs, act, k, n) + ChildShares(p, gs, act, k, n)
  {
    if n > 0 {
      FrontierMoves(p, gs, act, k, n - 1);
    }
  }

  lemma Distribute(s: real, a: int, b: int, c: int)
    ensures s * Part(a, c) + s * Part(b, c) == s * Part(a + b, c)
  {
    PartAdds(a, b, c);
    assert s * Part(a, c) + s * Part(b, c) == s * (Part(a, c) + Part(b, c));
  }

  /** What the first `n` groups take of the share of `k`, from its recorded weight. */
  function Taken(p: Parents, gs: Groups, act: set<nat>, k: nat, n: nat): real
    requires Tree(p, gs) && n <= |gs| && k < |gs|
  {
    Share(p, gs, k) * Part(Kids(p, gs, act, k, n).weight, gs[k].childrenWeight)
  }

  lemma TakenSteps(p: Parents, gs: Groups, act: set<nat>, k: nat, n: nat)
    requires Tree(p, gs) && 1 < n <= |gs| && k < |gs|
    ensures Taken(p, gs, act, k, n) == Taken(p, gs, act, k, n - 1) + if n - 1 in act && p[n - 1] == k then Share(p, gs, n - 1) else 0.0
  {
    if n - 1 in act && p[n - 1] == k {
      ChildAdds(p, gs, act, n - 1);
    } else {
      assert Kids(p, gs, act, k, n) == Kids(p, gs, act, k, n - 1);
    }
  }

  /** The active children of a group share out exactly what its tasks do not take. */
  lemma {:induction false} ChildSharesAre(p: Parents, gs: Groups, act: set<nat>, k: nat, n: nat)
    requires Tree(p, gs) && n <= |gs| && k < |gs|
    ensures ChildShares(p, gs, act, k, n) == Taken(p, gs, act, k, n)
  {
    if n > 1 {
      ChildSharesAre(p, gs, act, k, n - 1);
      TakenSteps(p, gs, act, k, n);
    } else {
      NoShare(Share(p, gs, k), gs[k].childrenWeight);
    }
  }

  lemma NoShare(s: real, c: int)
    ensures s * Part(0, c) == 0.0
  {
  }

  lemma ChildAdds(p: Parents, gs: Groups, act: set<nat>, i: nat)
    requires Tree(p, gs) && 0 < i < |gs| && i in act
    ensures var (s, c) := (Share(p, gs, p[i]), gs[p[i]].childrenWeight);
      s * Part(Kids(p, gs, act, p[i], i).weight, c) + Share(p, gs, i) == s * Part(Kids(p, gs, act, p[i], i + 1).weight, c)
  {
    var k := Kids(p, gs, act, p[i], i);
    assert Kids(p, gs, act, p[i], i + 1) == Plus(k, Load(1, gs[i].weight));
    Distribute(Share(p, gs, p[i]), k.weight, gs[i].weight, gs[p[i]].childrenWeight);
  }

  lemma OwnShare(p: Parents, gs: Groups, tree: set<nat>, k: nat)
    requires Tree(p, gs) && k < |gs|
    ensures (if k in tree then LeafShare(p, gs, k) else 0.0) ==
      Share(p, gs, k) * Part(Own(gs, tree, k).weight, gs[k].childrenWeight)
  {
  }

  lemma OwnAndChildren(p: Parents, gs: Groups, tree: set<nat>, act: set<nat>, k: nat)
    requires Tree(p, gs) && k < |gs| && LoadOf(gs[k]) == Due(p, gs, tree, act, k)
    ensures (if k in tree then LeafShare(p, gs, k) else 0.0) + ChildShares(p, gs, act, k, |gs|) ==
      if gs[k].childrenWeight > 0 then Share(p, gs, k) else 0.0
  {
    OwnShare(p, gs, tree, k);
    ChildSharesAre(p, gs, act, k, |gs|);
    Distribute(Share(p, gs, k), Own(gs, tree, k).weight, Kids(p, gs, act, k, |gs|).weight, gs[k].childrenWeight);
    if gs[k].childrenWeight > 0 {
      PartWhole(gs[k].childrenWeight);
    }
  }

  lemma {:induction false} SharesSumUpTo(p: Parents, gs: Groups, tree: set<nat>, k: nat)
    requires Inv(p, gs, tree) && k <= |gs|
    ensures LeafSum(p, gs, tree, k) + Frontier(p, gs, Active(gs), k, |gs|) <= 1.0
  {
    var act := Active(gs);
    if k == 0 {
      FrontierStarts(p, gs, act, |gs|);
    } else {
      SharesSumUpTo(p, gs, tree, k - 1);
      FrontierMoves(p, gs, act, k - 1, |gs|);
      assert LoadOf(gs[k - 1]) == Due(p, gs, tree, act, k - 1);
      OwnAndChildren(p, gs, tree, act, k - 1);
      DueNatural(p, gs, tree, act, k - 1);
      ShareNatural(p, gs, k - 1);
    }
  }

  /** The rounded fractions of the groups on the service tree never exceed the device. */
  lemma FractionsFit(p: Parents, gs: Groups, tree: set<nat>)
    requires Inv(p, gs, tree)
    ensures FractionSum(p, gs, tree, |gs|) <= ONE
  {
    SharesSumUpTo(p, gs, tree, |gs|);
    FrontierEnds(p, gs, Active(gs), |gs|, |gs|);
    SumFloor(p, gs, tree, |gs|);
  }

  // ---------------------------------------------------------------- operations and runs

  /** cfq_group_service_tree_add. */
  function Added(p: Parents, gs: Groups, g: nat): (r: Groups)
    requires Tree(p, gs) && g < |gs|
    ensures |r| == |gs|
  {
    var final := Rise(p, Entered(gs, g), g, gs[g].nrActive == 0);
    WithFraction(final, g, Max(Fraction(p, final, g), 1))
  }

  /** cfq_group_service_tree_del. */
  function Removed(p: Parents, gs: Groups, g: nat): (r: Groups)
    requires Tree(p, gs) && g < |gs|
    ensures |r| == |gs|
  {
    Sink(p, Left(gs, g), g, Left(gs, g)[g].nrActive == 0)
  }

  lemma AddedKeeps(p: Parents, gs: Groups, tree: set<nat>, g: nat)
    requires Inv(p, gs, tree) && g < |gs| && g !in tree
    ensures Inv(p, Added(p, gs, g), tree + {g})
  {
    EnteredKeeps(p, gs, tree, g);
    RiseKeeps(p, Entered(gs, g), tree + {g}, Active(gs), g, gs[g].nrActive == 0);
    var final := Rise(p, Entered(gs, g), g, gs[g].nrActive == 0);
    AlikeKeeps(p, final, Added(p, gs, g), tree + {g});
  }

  lemma RemovedKeeps(p: Parents, gs: Groups, tree: set<nat>, g: nat)
    requires Inv(p, gs, tree) && g in tree
    ensures Inv(p, Removed(p, gs, g), tree - {g})
  {
    LeftKeeps(p, gs, tree, g);
    SinkKeeps(p, Left(gs, g), tree - {g}, Active(gs), g, Left(gs, g)[g].nrActive == 0);
  }

  /** A weight change waits in `newWeight` or `newLeafWeight` until it can take effect. */
  function Pending(gs: Groups, g: nat, weight: nat): (r: Groups)
    requires g < |gs|
    ensures |r| == |gs|
  {
    gs[g := gs[g].(newWeight := weight)]
  }

  function PendingLeaf(gs: Groups, g: nat, weight: nat): (r: Groups)
    requires g < |gs|
    ensures |r| == |gs|
  {
    gs[g := gs[g].(newLeafWeight := weight)]
  }

  datatype State = State(groups: Groups, tree: set<nat>)

  datatype Op =
    | Add(g: nat)
    | Del(g: nat)
    | SetWeight(g: nat, weight: nat)
    | SetLeafWeight(g: nat, weight: nat)

  /** An operation the callers may perform; others are skipped, among them a weight of 0, for which the callers put
      the default of the cgroup. */
  function Step(p: Parents, s: State, op: Op): (t: State)
    requires Tree(p, s.groups)
    ensures Tree(p, t.groups)
  {
    if op.g >= |s.groups| then s
    else match op
      case Add(g) => if g in s.tree then s else State(Added(p, s.groups, g), s.tree + {g})
      case Del(g) => if g in s.tree then State(Removed(p, s.groups, g), s.tree - {g}) else s
      case SetWeight(g, w) => if w == 0 then s else State(Pending(s.groups, g, w), s.tree)
      case SetLeafWeight(g, w) => if w == 0 then s else State(PendingLeaf(s.groups, g, w), s.tree)
  }

  function Run(p: Parents, s: State, ops: seq<Op>): (t: State)
    requires Tree(p, s.groups)
    ensures Tree(p, t.groups)
  {
    if ops == [] then s else Step(p, Run(p, s, ops[..|ops| - 1]), ops[|ops| - 1])
  }

  /** Groups as they are created: idle, with positive weights. */
  predicate Fresh(p: Parents, gs: Groups) {
    Tree(p, gs) && Weighted(gs) && forall i :: 0 <= i < |gs| ==> LoadOf(gs[i]) == Load(0, 0)
  }

  lemma {:induction false} KidsOfNone(p: Parents, gs: Groups, j: nat, n: nat)
    requires n <= |gs| == |p|
    ensures Kids(p, gs, {}, j, n) == Load(0, 0)
  {
    if n > 1 {
      KidsOfNone(p, gs, j, n - 1);
    }
  }

  lemma FreshInv(p: Parents, gs: Groups)
    requires Fresh(p, gs)
    ensures Inv(p, gs, {})
  {
    forall i | 0 <= i < |gs| ensures gs[i].nrActive == 0 {
      assert LoadOf(gs[i]) == Load(0, 0);
    }
    assert Active(gs) == {};
    forall j | 0 <= j < |gs| ensures LoadOf(gs[j]) == Due(p, gs, {}, {}, j) {
      KidsOfNone(p, gs, j, |gs|);
    }
  }

  /** The fractions recorded do not: a group keeps the one it was given when it was activated.  With the
      root active first and then a child of equal weight, they are 4096 and 2048. */
  lemma RecordedFractionsGoStale()
    ensures var g := Group(0, 0, 500, 0, 500, 0, 0); var (p, gs) := ([0, 0], [g, g]);
      && Fresh(p, gs)
      && var r := Added(p, Added(p, gs, 0), 1);
         r[0].vfraction == 4096 && r[1].vfraction == 2048 && FractionSum(p, r, {0, 1}, 2) == 4096
  {
    var g := Group(0, 0, 500, 0, 500, 0, 0);
    var p, gs := [0, 0], [g, g];
    var r0 := Added(p, gs, 0);
    assert r0 == [Group(1, 500, 500, 0, 500, 0, 4096), g];
    var r := Added(p, r0, 1);
    assert r == [Group(2, 1000, 500, 0, 500, 0, 4096), Group(1, 500, 500, 0, 500, 0, 2048)];
    assert Fraction(p, r, 0) == 2048 && Fraction(p, r, 1) == 2048;
    assert FractionSum(p, r, {0, 1}, 0) == 0 && FractionSum(p, r, {0, 1}, 1) == 2048;
  }

  /** In every run of activations, deactivations and weight changes over every tree, each group
      records exactly itself and its active children, and the fractions the current loads give fit the
      device. */
  lemma {:induction false} LoadsInEveryRun(p: Parents, gs: Groups, ops: seq<Op>)
    requires Fresh(p, gs)
    ensures var s := Run(p, State(gs, {}), ops);
      Inv(p, s.groups, s.tree) && FractionSum(p, s.groups, s.tree, |s.groups|) <= ONE
  {
    var s := Run(p, State(gs, {}), ops);
    if ops == [] {
      FreshInv(p, gs);
    } else {
      LoadsInEveryRun(p, gs, ops[..|ops| - 1]);
      StepKeeps(p, Run(p, State(gs, {}), ops[..|ops| - 1]), ops[|ops| - 1]);
    }
    FractionsFit(p, s.groups, s.tree);
  }

  lemma StepKeeps(p: Parents, s: State, op: Op)
    requires Inv(p, s.groups, s.tree)
    ensures var t := Step(p, s, op); Inv(p, t.groups, t.tree)
  {
    if op.g < |s.groups| {
      match op
      case Add(g) => if g !in s.tree { AddedKeeps(p, s.groups, s.tree, g); }
      case Del(g) => if g in s.tree { RemovedKeeps(p, s.groups, s.tree, g); }
      case SetWeight(g, w) => AlikeKeeps(p, s.groups, Pending(s.groups, g, w), s.tree);
      case SetLeafWeight(g, w) => AlikeKeeps(p, s.groups, PendingLeaf(s.groups, g, w), s.tree);
    }
  }

  // ---------------------------------------------------------------- the code

  /** The loop never looks back: below `pos` nothing changes, and `pos` keeps its load weights. */
  lemma {:induction false} RiseFixes(p: Parents, gs: Groups, pos: nat, propagate: bool)
    requires Tree(p, gs) && pos < |gs|
    ensures var r := Rise(p, gs, pos, propagate);
      && (forall j :: pos < j < |gs| ==> r[j] == gs[j])
      && r[pos].childrenWeight == gs[pos].childrenWeight && r[pos].leafWeight == gs[pos].leafWeight
      && (!propagate ==> r == gs)
      && (propagate && pos > 0 ==> r[pos] == UpdatedWeight(gs[pos]))
    decreases pos
  {
    if pos > 0 && propagate {
      RiseFixes(p, Raised(p, gs, pos), p[pos], gs[p[pos]].nrActive == 0);
    }
  }

  /** An active child makes its parent's weight positive. */
  lemma ActiveChild(p: Parents, gs: Groups, tree: set<nat>, act: set<nat>, pos: nat)
    requires Tree(p, gs) && Weighted(gs) && Balanced(p, gs, tree, act) && 0 < pos < |gs| && pos in act
    ensures gs[p[pos]].childrenWeight > 0
  {
    KidsMember(p, gs, act, pos, |gs|);
    assert LoadOf(gs[p[pos]]) == Due(p, gs, tree, act, p[pos]);
  }

  lemma {:induction false} UpAlike(p: Parents, gs: Groups, gs': Groups, i: nat, v: nat)
    requires Tree(p, gs) && |gs| == |gs'| && i < |gs| && forall j :: 0 <= j < |gs| ==> Alike(gs[j], gs'[j])
    ensures Up(p, gs', i, v) == Up(p, gs, i, v)
    decreases i
  {
    if i > 0 {
      assert Alike(gs[i], gs'[i]) && Alike(gs[p[i]], gs'[p[i]]);
      UpAlike(p, gs, gs', p[i], Scaled(v, gs[i].weight, gs[p[i]].childrenWeight));
    }
  }

  /** The fraction recorded on activation is the one the new loads give, at least 1. */
  lemma AddedFraction(p: Parents, gs: Groups, g: nat)
    requires Tree(p, gs) && g < |gs|
    ensures var r := Added(p, gs, g); r[g].vfraction == Max(Fraction(p, r, g), 1)
  {
    var final := Rise(p, Entered(gs, g), g, gs[g].nrActive == 0);
    UpAlike(p, final, Added(p, gs, g), g, Scaled(ONE, final[g].leafWeight, final[g].childrenWeight));
  }

  /** What one turn of the activation loop leaves, and whether it goes on activating. */
  function Turn(p: Parents, gs: Groups, pos: nat, propagate: bool): (r: Groups)
    requires Tree(p, gs) && 0 < pos < |gs|
    ensures |r| == |gs|
  {
    if propagate then Raised(p, gs, pos) else gs
  }

  lemma TurnKeeps(p: Parents, gs: Groups, tree: set<nat>, act: set<nat>, pos: nat, propagate: bool)
    requires Rising(p, gs, tree, act, pos, propagate) && pos > 0
    ensures var r, more := Turn(p, gs, pos, propagate), propagate && gs[p[pos]].nrActive == 0;
      && Rising(p, r, tree, Active(gs), p[pos], more)
      && Rise(p, r, p[pos], more) == Rise(p, gs, pos, propagate)
      && r[p[pos]].childrenWeight > 0
  {
    if propagate {
      RaisedKeeps(p, gs, tree, act, pos);
    } else {
      ParentActive(p, gs, tree, act, pos);
    }
    ActiveChild(p, Turn(p, gs, pos, propagate), tree, Active(gs), pos);
  }

  lemma ParentActive(p: Parents, gs: Groups, tree: set<nat>, act: set<nat>, pos: nat)
    requires Tree(p, gs) && Balanced(p, gs, tree, act) && 0 < pos < |gs| && pos in act
    ensures gs[p[pos]].nrActive > 0
  {
    KidsMember(p, gs, act, pos, |gs|);
    assert LoadOf(gs[p[pos]]) == Due(p, gs, tree, act, p[pos]);
  }

  lemma TurnFixes(p: Parents, gs: Groups, pos: nat, propagate: bool)
    requires Tree(p, gs) && 0 < pos < |gs|
    ensures var r, more := Turn(p, gs, pos, propagate), propagate && gs[p[pos]].nrActive == 0;
      var final := Rise(p, r, p[pos], more);
      final[pos].weight == r[pos].weight && final[p[pos]].childrenWeight == r[p[pos]].childrenWeight
  {
    RiseFixes(p, Turn(p, gs, pos, propagate), p[pos], propagate && gs[p[pos]].nrActive == 0);
  }

  // ---------------------------------------------------------------- recorded fractions

  /** The activation loop touches no fraction and only the weights of groups it activates. */
  lemma {:induction false} RiseSpares(p: Parents, gs: Groups, pos: nat, propagate: bool, j: nat)
    requires Tree(p, gs) && pos < |gs| && j < |gs|
    ensures var r := Rise(p, gs, pos, propagate);
      && r[j].vfraction == gs[j].vfraction && r[j].leafWeight == gs[j].leafWeight
      && (gs[j].nrActive > 0 && (j == pos ==> !propagate) ==> r[j].weight == gs[j].weight)
    decreases pos
  {
    if pos > 0 && propagate {
      RiseSpares(p, Raised(p, gs, pos), p[pos], gs[p[pos]].nrActive == 0, j);
    }
  }

  /** The deactivation loop changes no weight, and only the fractions of groups left with nothing active. */
  lemma {:induction false} SinkSpares(p: Parents, gs: Groups, pos: nat, propagate: bool, j: nat)
    requires Tree(p, gs) && pos < |gs| && j < |gs| && (propagate ==> gs[pos].nrActive == 0)
    ensures var r := Sink(p, gs, pos, propagate);
      && r[j].nrActive <= gs[j].nrActive && r[j].weight == gs[j].weight && r[j].leafWeight == gs[j].leafWeight
      && (r[j].nrActive > 0 ==> r[j].vfraction == gs[j].vfraction)
    decreases pos
  {
    if pos > 0 && propagate {
      var r := Lowered(p, gs, pos);
      SinkSpares(p, r, p[pos], r[p[pos]].nrActive == 0, j);
    }
  }

  /** The weight of an active group is the same after any step, whatever weights wait. */
  lemma StepWeight(p: Parents, s: State, op: Op, j: nat)
    requires Tree(p, s.groups) && j < |s.groups| && s.groups[j].nrActive > 0
    ensures Step(p, s, op).groups[j].weight == s.groups[j].weight
  {
    if op.g < |s.groups| {
      match op
      case Add(g) => RiseSpares(p, Entered(s.groups, g), g, s.groups[g].nrActive == 0, j);
      case Del(g) => SinkSpares(p, Left(s.groups, g), g, Left(s.groups, g)[g].nrActive == 0, j);
      case SetWeight(_, _) =>
      case SetLeafWeight(_, _) =>
    }
  }

  lemma OnTreeActive(p: Parents, gs: Groups, tree: set<nat>, g: nat)
    requires Inv(p, gs, tree) && g in tree
    ensures gs[g].nrActive > 0
  {
    KidsNatural(p, gs, Active(gs), g, |gs|);
    assert LoadOf(gs[g]) == Due(p, gs, tree, Active(gs), g);
  }

  /** A group that stays on the service tree keeps its fraction and its leaf weight. */
  lemma StepFraction(p: Parents, s: State, op: Op, g: nat)
    requires Inv(p, s.groups, s.tree) && g in s.tree && op != Del(g)
    ensures var t := Step(p, s, op);
      && g in t.tree && |t.groups| == |s.groups|
      && t.groups[g].vfraction == s.groups[g].vfraction && t.groups[g].leafWeight == s.groups[g].leafWeight
  {
    if op.g < |s.groups| {
      match op
      case Add(h) => RiseSpares(p, Entered(s.groups, h), h, s.groups[h].nrActive == 0, g);
      case Del(h) =>
        if h in s.tree {
          RemovedKeeps(p, s.groups, s.tree, h);
          OnTreeActive(p, Removed(p, s.groups, h), s.tree - {h}, g);
          SinkSpares(p, Left(s.groups, h), h, Left(s.groups, h)[h].nrActive == 0, g);
        }
      case SetWeight(_, _) =>
      case SetLeafWeight(_, _) =>
    }
  }

  /** The weights from group `i` up to the root are the same. */
  predicate SameWeights(p: Parents, gs: Groups, gs': Groups, i: nat)
    requires Tree(p, gs) && |gs| == |gs'| && i < |gs|
    decreases i
  {
    i > 0 ==> gs[i].weight == gs'[i].weight && SameWeights(p, gs, gs', p[i])
  }

  /** The loads from group `i` up to the root weigh the same. */
  predicate SameLoads(p: Parents, gs: Groups, gs': Groups, i: nat)
    requires Tree(p, gs) && |gs| == |gs'| && i < |gs|
    decreases i
  {
    gs[i].childrenWeight == gs'[i].childrenWeight && (i > 0 ==> SameLoads(p, gs, gs', p[i]))
  }

  lemma {:induction false} UpSame(p: Parents, gs: Groups, gs': Groups, i: nat, v: nat)
    requires Tree(p, gs) && |gs| == |gs'| && i < |gs| && SameWeights(p, gs, gs', i) && SameLoads(p, gs, gs', i)
    ensures Up(p, gs', i, v) == Up(p, gs, i, v)
    decreases i
  {
    if i > 0 {
      UpSame(p, gs, gs', p[i], Scaled(v, gs[i].weight, gs[p[i]].childrenWeight));
    }
  }

  lemma {:induction false} SameWeightsJoin(p: Parents, a: Groups, b: Groups, c: Groups, i: nat)
    requires Tree(p, a) && |a| == |b| == |c| && i < |a| && SameWeights(p, a, b, i) && SameWeights(p, b, c, i)
    ensures SameWeights(p, a, c, i)
    decreases i
  {
    if i > 0 {
      SameWeightsJoin(p, a, b, c, p[i]);
    }
  }

  /** All groups above an active one are active, so their weights are the same after any step. */
  lemma {:induction false} StepWeights(p: Parents, s: State, op: Op, i: nat)
    requires Inv(p, s.groups, s.tree) && i < |s.groups| && s.groups[i].nrActive > 0
    ensures |Step(p, s, op).groups| == |s.groups| && SameWeights(p, s.groups, Step(p, s, op).groups, i)
    decreases i
  {
    StepWeight(p, s, op, i);
    if i > 0 {
      ParentActive(p, s.groups, s.tree, Active(s.groups), i);
      StepWeights(p, s, op, p[i]);
    }
  }

  lemma {:induction false} StandsWhileOn(p: Parents, s: State, ops: seq<Op>, g: nat)
    requires Inv(p, s.groups, s.tree) && g in s.tree && Del(g) !in ops
    ensures var t := Run(p, s, ops);
      && Inv(p, t.groups, t.tree) && g in t.tree && |t.groups| == |s.groups|
      && t.groups[g].vfraction == s.groups[g].vfraction && t.groups[g].leafWeight == s.groups[g].leafWeight
      && SameWeights(p, s.groups, t.groups, g)
  {
    if ops == [] {
      SameWeightsSelf(p, s.groups, g);
    } else {
      var (front, op) := (ops[..|ops| - 1], ops[|ops| - 1]);
      var t := Run(p, s, front);
      StandsWhileOn(p, s, front, g);
      StepKeeps(p, t, op);
      StepFraction(p, t, op, g);
      OnTreeActive(p, t.groups, t.tree, g);
      StepWeights(p, t, op, g);
      SameWeightsJoin(p, s.groups, t.groups, Step(p, t, op).groups, g);
    }
  }

  lemma {:induction false} SameWeightsSelf(p: Parents, gs: Groups, i: nat)
    requires Tree(p, gs) && i < |gs|
    ensures SameWeights(p, gs, gs, i)
    decreases i
  {
    if i > 0 {
      SameWeightsSelf(p, gs, p[i]);
    }
  }

  lemma SameFraction(p: Parents, gs: Groups, gs': Groups, g: nat)
    requires Tree(p, gs) && |gs| == |gs'| && g < |gs| && SameWeights(p, gs, gs', g) && SameLoads(p, gs, gs', g)
    requires gs'[g].leafWeight == gs[g].leafWeight
    ensures Fraction(p, gs', g) == Fraction(p, gs, g)
  {
    UpSame(p, gs, gs', g, Scaled(ONE, gs[g].leafWeight, gs[g].childrenWeight));
  }

  /** The state an activation leaves in a run. */
  lemma ActivatedInRun(p: Parents, gs: Groups, before: seq<Op>, g: nat)
    requires Fresh(p, gs) && g < |gs| && g !in Run(p, State(gs, {}), before).tree
    ensures var u := Run(p, State(gs, {}), before + [Add(g)]);
      && Inv(p, u.groups, u.tree) && g in u.tree && |u.groups| == |gs|
      && u.groups[g].vfraction == Max(Fraction(p, u.groups, g), 1)
  {
    LoadsInEveryRun(p, gs, before + [Add(g)]);
    assert (before + [Add(g)])[..|before|] == before;
    RunSize(p, State(gs, {}), before);
    AddedFraction(p, Run(p, State(gs, {}), before).groups, g);
  }

  /** In every run, from the activation of `g` until it is taken off: the fraction it records is the one given
      at its activation, no weight change takes effect on its path, and the fraction is still the one the current
      loads give as long as the loads on its path weigh the same. */
  lemma RecordedFraction(p: Parents, gs: Groups, before: seq<Op>, g: nat, after: seq<Op>)
    requires Fresh(p, gs) && g < |gs| && g !in Run(p, State(gs, {}), before).tree && Del(g) !in after
    ensures var u := Run(p, State(gs, {}), before + [Add(g)]);
      var t := Run(p, u, after);
      && |t.groups| == |u.groups| == |gs|
      && t.groups[g].vfraction == Max(Fraction(p, u.groups, g), 1)
      && SameWeights(p, u.groups, t.groups, g)
      && (SameLoads(p, u.groups, t.groups, g) ==> t.groups[g].vfraction == Max(Fraction(p, t.groups, g), 1))
  {
    ActivatedInRun(p, gs, before, g);
    var u := Run(p, State(gs, {}), before + [Add(g)]);
    StandsWhileOn(p, u, after, g);
    var t := Run(p, u, after);
    if SameLoads(p, u.groups, t.groups, g) {
      SameFraction(p, u.groups, t.groups, g);
    }
  }

  lemma {:induction false} RunSize(p: Parents, s: State, ops: seq<Op>)
    requires Tree(p, s.groups)
    ensures |Run(p, s, ops).groups| == |s.groups|
  {
    if ops != [] {
      RunSize(p, s, ops[..|ops| - 1]);
    }
  }

  // ---------------------------------------------------------------- which weights are in force

  /** The weight last asked for `g`, or `initial`. */
  function LastWeight(ops: seq<Op>, g: nat, initial: nat): nat {
    if ops == [] then initial
    else
      var op := ops[|ops| - 1];
      if op.SetWeight? && op.g == g && op.weight > 0 then op.weight else LastWeight(ops[..|ops| - 1], g, initial)
  }

  function LastLeafWeight(ops: seq<Op>, g: nat, initial: nat): nat {
    if ops == [] then initial
    else
      var op := ops[|ops| - 1];
      if op.SetLeafWeight? && op.g == g && op.weight > 0 then op.weight else LastLeafWeight(ops[..|ops| - 1], g, initial)
  }

  /** The weights a group will have when nothing more is asked. */
  function Asked(g: Group): nat {
    if g.newWeight != 0 then g.newWeight else g.weight
  }

  function AskedLeaf(g: Group): nat {
    if g.newLeafWeight != 0 then g.newLeafWeight else g.leafWeight
  }

  lemma {:induction false} RiseAsked(p: Parents, gs: Groups, pos: nat, propagate: bool, j: nat)
    requires Tree(p, gs) && pos < |gs| && j < |gs|
    ensures var r := Rise(p, gs, pos, propagate);
      Asked(r[j]) == Asked(gs[j]) && r[j].leafWeight == gs[j].leafWeight && r[j].newLeafWeight == gs[j].newLeafWeight
    decreases pos
  {
    if pos > 0 && propagate {
      RiseAsked(p, Raised(p, gs, pos), p[pos], gs[p[pos]].nrActive == 0, j);
    }
  }

  lemma {:induction false} SinkAsked(p: Parents, gs: Groups, pos: nat, propagate: bool, j: nat)
    requires Tree(p, gs) && pos < |gs| && j < |gs|
    ensures var r := Sink(p, gs, pos, propagate);
      Asked(r[j]) == Asked(gs[j]) && AskedLeaf(r[j]) == AskedLeaf(gs[j])
    decreases pos
  {
    if pos > 0 && propagate {
      var r := Lowered(p, gs, pos);
      SinkAsked(p, r, p[pos], r[p[pos]].nrActive == 0, j);
    }
  }

  /** Only asking changes what is asked. */
  lemma StepAsked(p: Parents, s: State, op: Op, j: nat)
    requires Tree(p, s.groups) && j < |s.groups|
    ensures |Step(p, s, op).groups| == |s.groups|
    ensures Asked(Step(p, s, op).groups[j]) ==
      if op.SetWeight? && op.g == j && op.weight > 0 then op.weight else Asked(s.groups[j])
    ensures AskedLeaf(Step(p, s, op).groups[j]) ==
      if op.SetLeafWeight? && op.g == j && op.weight > 0 then op.weight else AskedLeaf(s.groups[j])
  {
    if op.g < |s.groups| {
      match op
      case Add(g) => RiseAsked(p, Entered(s.groups, g), g, s.groups[g].nrActive == 0, j);
      case Del(g) => SinkAsked(p, Left(s.groups, g), g, Left(s.groups, g)[g].nrActive == 0, j);
      case SetWeight(_, _) =>
      case SetLeafWeight(_, _) =>
    }
  }

  lemma {:induction false} AskedInEveryRun(p: Parents, gs: Groups, ops: seq<Op>, j: nat)
    requires Tree(p, gs) && j < |gs|
    ensures var s := Run(p, State(gs, {}), ops);
      && |s.groups| == |gs|
      && Asked(s.groups[j]) == LastWeight(ops, j, Asked(gs[j]))
      && AskedLeaf(s.groups[j]) == LastLeafWeight(ops, j, AskedLeaf(gs[j]))
  {
    if ops != [] {
      AskedInEveryRun(p, gs, ops[..|ops| - 1], j);
      StepAsked(p, Run(p, State(gs, {}), ops[..|ops| - 1]), ops[|ops| - 1], j);
    }
  }

  /** What the activation loop activates has nothing pending. */
  lemma {:induction false} RiseSettles(p: Parents, gs: Groups, pos: nat, propagate: bool, j: nat)
    requires Tree(p, gs) && pos < |gs| && 0 < j < |gs| && (gs[j].nrActive == 0 || (j == pos && propagate))
    ensures var r := Rise(p, gs, pos, propagate); r[j].nrActive > 0 ==> r[j].newWeight == 0
    decreases pos
  {
    if pos > 0 && propagate {
      var r := Raised(p, gs, pos);
      if j == pos {
        RiseFixes(p, r, p[pos], gs[p[pos]].nrActive == 0);
      } else {
        RiseSettles(p, r, p[pos], gs[p[pos]].nrActive == 0, j);
      }
    }
  }

  lemma IdleIsZero(p: Parents, gs: Groups, tree: set<nat>, j: nat)
    requires Inv(p, gs, tree) && j < |gs| && gs[j].nrActive <= 0
    ensures gs[j].nrActive == 0
  {
    DueNatural(p, gs, tree, Active(gs), j);
    assert LoadOf(gs[j]) == Due(p, gs, tree, Active(gs), j);
  }

  /** A group becomes active with the weight asked for. */
  lemma ActivationSettles(p: Parents, s: State, op: Op, j: nat)
    requires Tree(p, s.groups) && 0 < j < |s.groups| && s.groups[j].nrActive == 0
    ensures var t := Step(p, s, op);
      |t.groups| == |s.groups| && (t.groups[j].nrActive > 0 ==> t.groups[j].weight == Asked(s.groups[j]) && t.groups[j].newWeight == 0)
  {
    StepAsked(p, s, op, j);
    if op.g < |s.groups| {
      match op
      case Add(g) => RiseSettles(p, Entered(s.groups, g), g, s.groups[g].nrActive == 0, j);
      case Del(g) => SinkSpares(p, Left(s.groups, g), g, Left(s.groups, g)[g].nrActive == 0, j);
      case SetWeight(_, _) =>
      case SetLeafWeight(_, _) =>
    }
  }

  /** The activation loop leaves what waits for an active group alone. */
  lemma {:induction false} RisePending(p: Parents, gs: Groups, pos: nat, propagate: bool, j: nat)
    requires Tree(p, gs) && pos < |gs| && j < |gs| && gs[j].nrActive > 0 && (j == pos ==> !propagate)
    ensures Rise(p, gs, pos, propagate)[j].newWeight == gs[j].newWeight
    decreases pos
  {
    if pos > 0 && propagate {
      RisePending(p, Raised(p, gs, pos), p[pos], gs[p[pos]].nrActive == 0, j);
    }
  }

  lemma {:induction false} SinkPending(p: Parents, gs: Groups, pos: nat, propagate: bool, j: nat)
    requires Tree(p, gs) && pos < |gs| && j < |gs|
    ensures var r := Sink(p, gs, pos, propagate); r[j].newWeight == gs[j].newWeight && r[j].newLeafWeight == gs[j].newLeafWeight
    decreases pos
  {
    if pos > 0 && propagate {
      var r := Lowered(p, gs, pos);
      SinkPending(p, r, p[pos], r[p[pos]].nrActive == 0, j);
    }
  }

  lemma StepPending(p: Parents, s: State, op: Op, j: nat)
    requires Tree(p, s.groups) && j < |s.groups| && s.groups[j].nrActive > 0
    ensures |Step(p, s, op).groups| == |s.groups|
    ensures Step(p, s, op).groups[j].newWeight ==
      if op.SetWeight? && op.g == j && op.weight > 0 then op.weight else s.groups[j].newWeight
  {
    if op.g < |s.groups| {
      match op
      case Add(g) => RisePending(p, Entered(s.groups, g), g, s.groups[g].nrActive == 0, j);
      case Del(g) => SinkPending(p, Left(s.groups, g), g, Left(s.groups, g)[g].nrActive == 0, j);
      case SetWeight(_, _) =>
      case SetLeafWeight(_, _) =>
    }
  }

  lemma StepPendingLeaf(p: Parents, s: State, op: Op, g: nat)
    requires Tree(p, s.groups) && g < |s.groups| && g in s.tree
    ensures |Step(p, s, op).groups| == |s.groups|
    ensures Step(p, s, op).groups[g].newLeafWeight ==
      if op.SetLeafWeight? && op.g == g && op.weight > 0 then op.weight else s.groups[g].newLeafWeight
  {
    if op.g < |s.groups| {
      match op
      case Add(h) => RiseAsked(p, Entered(s.groups, h), h, s.groups[h].nrActive == 0, g);
      case Del(h) => SinkPending(p, Left(s.groups, h), h, Left(s.groups, h)[h].nrActive == 0, g);
      case SetWeight(_, _) =>
      case SetLeafWeight(_, _) =>
    }
  }

  lemma ActivatesAsAsked(p: Parents, gs: Groups, front: seq<Op>, op: Op, j: nat)
    requires Fresh(p, gs) && 0 < j < |gs|
    ensures var (s, t) := (Run(p, State(gs, {}), front), Step(p, Run(p, State(gs, {}), front), op));
      && |s.groups| == |t.groups| == |gs|
      && (s.groups[j].nrActive <= 0 < t.groups[j].nrActive ==>
            t.groups[j].weight == LastWeight(front, j, Asked(gs[j])) && t.groups[j].newWeight == 0)
  {
    var s := Run(p, State(gs, {}), front);
    AskedInEveryRun(p, gs, front, j);
    StepAsked(p, s, op, j);
    if s.groups[j].nrActive <= 0 {
      LoadsInEveryRun(p, gs, front);
      IdleIsZero(p, s.groups, s.tree, j);
      ActivationSettles(p, s, op, j);
    }
  }

  lemma FrontOfRest<T>(s: seq<T>, k: nat)
    requires k + 1 < |s|
    ensures var rest := s[k + 1..]; rest != [] && rest[|rest| - 1] == s[|s| - 1] && rest[..|rest| - 1] == s[..|s| - 1][k + 1..]
  {
  }

  /** Since operation `k` group `j` has been active. */
  predicate ActiveSince(p: Parents, gs: Groups, ops: seq<Op>, k: nat, j: nat)
    requires Tree(p, gs)
  {
    && k < |ops| && j < |Run(p, State(gs, {}), ops[..k]).groups| && Run(p, State(gs, {}), ops[..k]).groups[j].nrActive <= 0
    && forall i :: k < i <= |ops| ==>
         j < |Run(p, State(gs, {}), ops[..i]).groups| && Run(p, State(gs, {}), ops[..i]).groups[j].nrActive > 0
  }

  lemma ActiveBefore(p: Parents, gs: Groups, ops: seq<Op>, k: nat, j: nat)
    requires Tree(p, gs) && ActiveSince(p, gs, ops, k, j) && k + 1 < |ops|
    ensures ActiveSince(p, gs, ops[..|ops| - 1], k, j)
  {
    var front := ops[..|ops| - 1];
    assert forall i :: 0 <= i <= |front| ==> front[..i] == ops[..i];
  }

  lemma ActiveOn(p: Parents, gs: Groups, ops: seq<Op>, k: nat, j: nat)
    requires Tree(p, gs) && ops != [] && ActiveSince(p, gs, ops[..|ops| - 1], k, j)
    requires j < |Run(p, State(gs, {}), ops).groups| && Run(p, State(gs, {}), ops).groups[j].nrActive > 0
    ensures ActiveSince(p, gs, ops, k, j)
  {
    var front := ops[..|ops| - 1];
    assert forall i :: 0 <= i <= |front| ==> front[..i] == ops[..i];
    assert ops[..|ops|] == ops;
  }

  /** In every run, of every group that counts with its parent: its weight is the one last asked for before it became
      active, or its initial one if there was none. */
  lemma {:induction false} WeightInForce(p: Parents, gs: Groups, ops: seq<Op>, j: nat) returns (k: nat)
    requires Fresh(p, gs) && 0 < j < |gs|
    requires |Run(p, State(gs, {}), ops).groups| == |gs| && Run(p, State(gs, {}), ops).groups[j].nrActive > 0
    ensures ActiveSince(p, gs, ops, k, j)
    ensures Run(p, State(gs, {}), ops).groups[j].weight == LastWeight(ops[..k], j, Asked(gs[j]))
  {
    var n := |ops| - 1;
    var s := Run(p, State(gs, {}), ops[..n]);
    ActivatesAsAsked(p, gs, ops[..n], ops[n], j);
    if s.groups[j].nrActive <= 0 {
      k := n;
      assert ops[..n + 1] == ops;
    } else {
      k := WeightInForce(p, gs, ops[..n], j);
      assert ops[..n][..k] == ops[..k];
      StepWeight(p, s, ops[n], j);
      ActiveOn(p, gs, ops, k, j);
    }
  }

  /** The leaf weight of a group on the service tree likewise: the one last asked for before it was put there. */
  lemma {:induction false} LeafWeightInForce(p: Parents, gs: Groups, ops: seq<Op>, g: nat) returns (k: nat)
    requires Fresh(p, gs) && g < |gs| && g in Run(p, State(gs, {}), ops).tree
    ensures k < |ops| && g !in Run(p, State(gs, {}), ops[..k]).tree
    ensures forall i :: k < i <= |ops| ==> g in Run(p, State(gs, {}), ops[..i]).tree
    ensures |Run(p, State(gs, {}), ops).groups| == |gs|
    ensures Run(p, State(gs, {}), ops).groups[g].leafWeight == LastLeafWeight(ops[..k], g, AskedLeaf(gs[g]))
  {
    var n := |ops| - 1;
    var s := Run(p, State(gs, {}), ops[..n]);
    assert ops[..n + 1] == ops;
    AskedInEveryRun(p, gs, ops[..n], g);
    AskedInEveryRun(p, gs, ops, g);
    if g !in s.tree {
      k := n;
      RiseAsked(p, Entered(s.groups, g), g, s.groups[g].nrActive == 0, g);
    } else {
      k := LeafWeightInForce(p, gs, ops[..n], g);
      assert forall i :: 0 <= i <= n ==> ops[..n][..i] == ops[..i];
      LoadsInEveryRun(p, gs, ops[..n]);
      StepFraction(p, s, ops[n], g);
    }
  }

  /** What is asked for while a group is active waits, and nothing else does. */
  lemma {:induction false} AskedSinceWaits(p: Parents, gs: Groups, ops: seq<Op>, k: nat, j: nat)
    requires Fresh(p, gs) && 0 < j < |gs| && ActiveSince(p, gs, ops, k, j)
    ensures |Run(p, State(gs, {}), ops).groups| == |gs|
    ensures Run(p, State(gs, {}), ops).groups[j].newWeight == LastWeight(ops[k + 1..], j, 0)
  {
    var n := |ops| - 1;
    RunSize(p, State(gs, {}), ops);
    assert ops[..n + 1] == ops;
    ActivatesAsAsked(p, gs, ops[..n], ops[n], j);
    if k == n {
      assert ops[n + 1..] == [];
    } else {
      ActiveBefore(p, gs, ops, k, j);
      AskedSinceWaits(p, gs, ops[..n], k, j);
      StepPending(p, Run(p, State(gs, {}), ops[..n]), ops[n], j);
      FrontOfRest(ops, k);
    }
  }

  lemma {:induction false} LeafAskedSinceWaits(p: Parents, gs: Groups, ops: seq<Op>, k: nat, g: nat)
    requires Fresh(p, gs) && g < |gs| && k < |ops| && g !in Run(p, State(gs, {}), ops[..k]).tree
    requires forall i :: k < i <= |ops| ==> g in Run(p, State(gs, {}), ops[..i]).tree
    ensures |Run(p, State(gs, {}), ops).groups| == |gs|
    ensures Run(p, State(gs, {}), ops).groups[g].newLeafWeight == LastLeafWeight(ops[k + 1..], g, 0)
  {
    var n := |ops| - 1;
    var s := Run(p, State(gs, {}), ops[..n]);
    RunSize(p, State(gs, {}), ops);
    RunSize(p, State(gs, {}), ops[..n]);
    assert ops[..n + 1] == ops;
    if k == n {
      assert ops[n + 1..] == [];
      RiseAsked(p, Entered(s.groups, g), g, s.groups[g].nrActive == 0, g);
    } else {
      assert forall i :: 0 <= i <= n ==> ops[..n][..i] == ops[..i];
      LeafAskedSinceWaits(p, gs, ops[..n], k, g);
      StepPendingLeaf(p, s, ops[n], g);
      FrontOfRest(ops, k);
    }
  }

  lemma {:induction false} SinkIdles(p: Parents, gs: Groups, pos: nat, propagate: bool, j: nat)
    requires Tree(p, gs) && pos < |gs| && j < |gs| && (propagate ==> gs[pos].nrActive == 0)
    requires gs[j].nrActive == 0 && !(j == pos && propagate) ==> gs[j].vfraction == 0
    ensures var r := Sink(p, gs, pos, propagate); r[j].nrActive == 0 ==> r[j].vfraction == 0
    decreases pos
  {
    if pos > 0 && propagate {
      var r := Lowered(p, gs, pos);
      SinkIdles(p, r, p[pos], r[p[pos]].nrActive == 0, j);
    }
  }

  /** In every run a group with nothing active has no fraction. */
  lemma {:induction false} IdleHasNoFraction(p: Parents, gs: Groups, ops: seq<Op>, j: nat)
    requires Fresh(p, gs) && j < |gs| && gs[j].vfraction == 0
    ensures var s := Run(p, State(gs, {}), ops); |s.groups| == |gs| && (s.groups[j].nrActive == 0 ==> s.groups[j].vfraction == 0)
  {
    RunSize(p, State(gs, {}), ops);
    if ops != [] {
      var (s, op) := (Run(p, State(gs, {}), ops[..|ops| - 1]), ops[|ops| - 1]);
      IdleHasNoFraction(p, gs, ops[..|ops| - 1], j);
      LoadsInEveryRun(p, gs, ops[..|ops| - 1]);
      NoneNegative(p, s.groups, s.tree, j);
      if op.g < |gs| {
        NoneNegative(p, s.groups, s.tree, op.g);
      }
      StepIdles(p, s, op, j);
    }
  }

  lemma {:induction false} RiseIdles(p: Parents, gs: Groups, pos: nat, propagate: bool, j: nat)
    requires Tree(p, gs) && pos < |gs| && j < |gs|
    ensures Rise(p, gs, pos, propagate)[j].nrActive >= gs[j].nrActive
    decreases pos
  {
    if pos > 0 && propagate {
      RiseIdles(p, Raised(p, gs, pos), p[pos], gs[p[pos]].nrActive == 0, j);
    }
  }

  lemma AddIdles(p: Parents, gs: Groups, g: nat, j: nat)
    requires Tree(p, gs) && g < |gs| && j < |gs| && gs[g].nrActive >= 0 && gs[j].nrActive >= 0
    requires gs[j].nrActive == 0 ==> gs[j].vfraction == 0
    ensures Added(p, gs, g)[j].nrActive == 0 ==> Added(p, gs, g)[j].vfraction == 0
  {
    RiseIdles(p, Entered(gs, g), g, gs[g].nrActive == 0, j);
    RiseSpares(p, Entered(gs, g), g, gs[g].nrActive == 0, j);
  }

  lemma DelIdles(p: Parents, gs: Groups, g: nat, j: nat)
    requires Tree(p, gs) && g < |gs| && j < |gs| && (gs[j].nrActive == 0 ==> gs[j].vfraction == 0)
    ensures Removed(p, gs, g)[j].nrActive == 0 ==> Removed(p, gs, g)[j].vfraction == 0
  {
    SinkIdles(p, Left(gs, g), g, Left(gs, g)[g].nrActive == 0, j);
  }

  lemma NoneNegative(p: Parents, gs: Groups, tree: set<nat>, j: nat)
    requires Inv(p, gs, tree) && j < |gs|
    ensures gs[j].nrActive >= 0
  {
    if gs[j].nrActive <= 0 {
      IdleIsZero(p, gs, tree, j);
    }
  }

  lemma StepIdles(p: Parents, s: State, op: Op, j: nat)
    requires Tree(p, s.groups) && j < |s.groups| && (s.groups[j].nrActive == 0 ==> s.groups[j].vfraction == 0)
    requires s.groups[j].nrActive >= 0 && (op.g < |s.groups| ==> s.groups[op.g].nrActive >= 0)
    ensures var t := Step(p, s, op); |t.groups| == |s.groups| && (t.groups[j].nrActive == 0 ==> t.groups[j].vfraction == 0)
  {
    if op.g < |s.groups| {
      match op
      case Add(g) => AddIdles(p, s.groups, g, j);
      case Del(g) => DelIdles(p, s.groups, g, j);
      case SetWeight(_, _) =>
      case SetLeafWeight(_, _) =>
    }
  }

  /** With the root on the tree, a group of weight 500 for which 100 was asked counts with 100 when it is added. */
  lemma PendingWeightCounts()
    ensures var (root, g) := (Group(0, 0, 500, 0, 500, 0, 0), Group(0, 0, 500, 100, 500, 0, 0));
      var r := Added([0, 0], Added([0, 0], [root, g], 0), 1);
      r[1].weight == 100 && r[0].childrenWeight == 600 && r[1].vfraction == 682
  {
    var (root, g) := (Group(0, 0, 500, 0, 500, 0, 0), Group(0, 0, 500, 100, 500, 0, 0));
    var r0 := Added([0, 0], [root, g], 0);
    assert r0 == [Group(1, 500, 500, 0, 500, 0, 4096), g];
    var e := Entered(r0, 1);
    assert e == [r0[0], Group(1, 500, 500, 100, 500, 0, 0)];
    var f := Rise([0, 0], e, 1, true);
    assert f == [Group(2, 600, 500, 0, 500, 0, 4096), Group(1, 500, 100, 0, 500, 0, 0)];
    assert Fraction([0, 0], f, 1) == 4096 * 100 / 600 == 682;
  }

  class CfqTree {
    const parent: Parents
    var groups: Groups
    var tree: set<nat>

    ghost predicate Valid()
      reads this
    {
      Inv(parent, groups, tree)
    }

    constructor (parents: Parents, gs: Groups)
      requires Fresh(parents, gs)
      ensures Valid() && parent == parents && groups == gs && tree == {}
    {
      parent, groups, tree := parents, gs, {};
      FreshInv(parents, gs);
    }

    /** cfq_group_service_tree_add. */
    method ServiceTreeAdd(cfqg: nat)
      requires Valid() && cfqg < |groups|
      requires cfqg !in tree // BUG_ON
      modifies this
      ensures groups == Added(parent, old(groups), cfqg) && tree == old(tree) + {cfqg}
      ensures Valid() && groups[cfqg].vfraction == Max(Fraction(parent, groups, cfqg), 1)
    {
      AddedKeeps(parent, groups, tree, cfqg);
      AddedFraction(parent, groups, cfqg);
      ghost var act := Active(groups);
      var vfr, propagate := Enter(cfqg);
      ghost var final := Rise(parent, groups, cfqg, propagate);
      RiseFixes(parent, groups, cfqg, propagate);
      var pos := cfqg;
      while pos != 0
        invariant Rising(parent, groups, tree, act, pos, propagate)
        invariant Rise(parent, groups, pos, propagate) == final && Tree(parent, final)
        invariant Up(parent, final, pos, vfr) == Fraction(parent, final, cfqg)
        invariant tree == old(tree) + {cfqg}
      {
        TurnKeeps(parent, groups, tree, act, pos, propagate);
        TurnFixes(parent, groups, pos, propagate);
        ghost var next := Active(groups);
        vfr, propagate := Climb(pos, propagate, vfr, act);
        act := next;
        pos := parent[pos];
      }
      groups := WithFraction(groups, cfqg, if vfr > 1 then vfr else 1);
    }

    /** What precedes the activation loop. */
    method Enter(cfqg: nat) returns (vfr: nat, propagate: bool)
      requires Valid() && cfqg < |groups| && cfqg !in tree
      modifies this
      ensures groups == Entered(old(groups), cfqg) && tree == old(tree) + {cfqg}
      ensures propagate == (old(groups)[cfqg].nrActive == 0)
      ensures vfr == Scaled(ONE, groups[cfqg].leafWeight, groups[cfqg].childrenWeight)
      ensures Rising(parent, groups, tree, Active(old(groups)), cfqg, propagate)
    {
      EnteredBalanced(parent, groups, tree, Active(groups), cfqg);
      EnteredKeeps(parent, groups, tree, cfqg);
      groups := groups[cfqg := UpdatedLeafWeight(groups[cfqg])];
      tree := tree + {cfqg};
      propagate := groups[cfqg].nrActive == 0;
      groups := groups[cfqg := Charged(groups[cfqg], groups[cfqg].leafWeight)];
      assert groups == Entered(old(groups), cfqg);
      vfr := ONE * groups[cfqg].leafWeight / groups[cfqg].childrenWeight;
    }

    /** One turn of the activation loop. */
    method Climb(pos: nat, propagate: bool, vfr: nat, ghost act: set<nat>) returns (v: nat, more: bool)
      requires Rising(parent, groups, tree, act, pos, propagate) && pos > 0
      modifies this`groups
      ensures groups == Turn(parent, old(groups), pos, propagate)
      ensures more == (propagate && old(groups)[parent[pos]].nrActive == 0)
      ensures v == Scaled(vfr, groups[pos].weight, groups[parent[pos]].childrenWeight)
    {
      var par := parent[pos];
      more := false;
      TurnKeeps(parent, groups, tree, act, pos, propagate);
      if propagate {
        more := groups[par].nrActive == 0;
        Activate(pos);
      }
      v := vfr * groups[pos].weight / groups[par].childrenWeight;
    }

    method Activate(pos: nat)
      requires Tree(parent, groups) && 0 < pos < |groups|
      modifies this`groups
      ensures groups == Raised(parent, old(groups), pos)
    {
      var par := parent[pos];
      groups := groups[pos := UpdatedWeight(groups[pos])];
      groups := groups[par := Charged(groups[par], groups[pos].weight)];
    }

    /** cfq_group_service_tree_del. */
    method ServiceTreeDel(cfqg: nat)
      requires Valid() && cfqg in tree
      modifies this
      ensures Valid() && groups == Removed(parent, old(groups), cfqg) && tree == old(tree) - {cfqg}
    {
      ghost var act := Active(groups);
      ghost var left := tree - {cfqg};
      LeftKeeps(parent, groups, tree, cfqg);
      RemovedKeeps(parent, groups, tree, cfqg);
      var pos := cfqg;
      groups := groups[pos := Released(groups[pos], groups[pos].leafWeight)];
      var propagate := groups[pos].nrActive == 0;
      while propagate
        invariant Sinking(parent, groups, left, act, pos, propagate) || (pos == 0 && !propagate)
        invariant Tree(parent, groups) && pos < |groups| && tree == old(tree)
        invariant Sink(parent, groups, pos, propagate) == Removed(parent, old(groups), cfqg)
        decreases pos, propagate
      {
        IdleWeighsNothing(parent, groups, left, act, pos);
        assert groups[pos].childrenWeight == 0; // WARN_ON_ONCE
        if pos == 0 {
          groups := WithFraction(groups, 0, 0);
          break;
        }
        LoweredKeeps(parent, groups, left, act, pos);
        act := act - {pos};
        groups := groups[pos := groups[pos].(vfraction := 0)];
        groups := groups[parent[pos] := Released(groups[parent[pos]], groups[pos].weight)];
        pos := parent[pos];
        propagate := groups[pos].nrActive == 0;
      }
      tree := tree - {cfqg};
    }
  }
}
