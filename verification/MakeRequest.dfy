/** generic_make_request of block/blk-core.c: recursive submission turned into a loop.

    A submission tree says what happens to a bio: the queue it is for, whether it passes
    generic_make_request_checks, whether the queue can be entered, and which bios the make_request_fn
    of that queue submits in turn.
 */
module MakeRequest {

  datatype Bio = Bio(id: nat, queue: nat, passes: bool, enters: bool, kids: seq<Bio>)

  /** What is done with a bio: handed to its make_request_fn, or failed by bio_io_error. */
  datatype Visit = Made(id: nat) | Failed(id: nat)

  function Size(b: Bio): nat
    decreases b, 1
  {
    1 + SizeAll(b.kids)
  }

  function SizeAll(bs: seq<Bio>): nat
    decreases bs, 0
  {
    if bs == [] then 0 else Size(bs[0]) + SizeAll(bs[1..])
  }

  lemma {:induction false} SizeConcat(a: seq<Bio>, b: seq<Bio>)
    ensures SizeAll(a + b) == SizeAll(a) + SizeAll(b)
  {
    if a == [] {
      assert a + b == b;
    } else {
      assert (a + b)[1..] == a[1..] + b;
      SizeConcat(a[1..], b);
    }
  }

  // ---------------------------------------------------------------- lists of bios

  /** The bios that reach the list: those that pass the checks. */
  function Passing(bs: seq<Bio>): (r: seq<Bio>)
    ensures SizeAll(r) <= SizeAll(bs)
  {
    if bs == [] then []
    else
      var rest := Passing(bs[1..]);
      assert ([bs[0]] + rest)[1..] == rest;
      if bs[0].passes then [bs[0]] + rest else rest
  }

  /** The bios for queue `q`, or those for other queues, in order. */
  function For(bs: seq<Bio>, q: nat, same: bool): (r: seq<Bio>)
    ensures SizeAll(r) <= SizeAll(bs)
  {
    if bs == [] then []
    else
      var rest := For(bs[1..], q, same);
      assert ([bs[0]] + rest)[1..] == rest;
      if (bs[0].queue == q) == same then [bs[0]] + rest else rest
  }

  lemma {:induction false} ForSizes(bs: seq<Bio>, q: nat)
    ensures SizeAll(For(bs, q, false)) + SizeAll(For(bs, q, true)) == SizeAll(bs)
  {
    if bs != [] {
      ForSizes(bs[1..], q);
      assert ([bs[0]] + For(bs[1..], q, true))[1..] == For(bs[1..], q, true);
      assert ([bs[0]] + For(bs[1..], q, false))[1..] == For(bs[1..], q, false);
    }
  }

  lemma {:induction false} ForAppend(bs: seq<Bio>, b: Bio, q: nat, same: bool)
    ensures For(bs + [b], q, same) == For(bs, q, same) + if (b.queue == q) == same then [b] else []
  {
    if bs == [] {
      assert [] + [b] == [b] && [b][1..] == [];
    } else {
      assert (bs + [b])[1..] == bs[1..] + [b];
      ForAppend(bs[1..], b, q, same);
    }
  }

  // ---------------------------------------------------------------- the recursive walk

  /** What a bio submits, if its queue can be entered: lower devices first, then its own. */
  function Submitted(b: Bio): (r: seq<Bio>)
    ensures SizeAll(r) < Size(b)
  {
    if !b.enters then []
    else
      var kids := Passing(b.kids);
      ForSizes(kids, b.queue);
      SizeConcat(For(kids, b.queue, false), For(kids, b.queue, true));
      For(kids, b.queue, false) + For(kids, b.queue, true)
  }

  function VisitOf(b: Bio): Visit {
    if b.enters then Made(b.id) else Failed(b.id)
  }

  /** The order a recursive implementation would visit the tree in: pre-order, depth first. */
  function Walk(b: Bio): seq<Visit>
    decreases Size(b), 1
  {
    [VisitOf(b)] + WalkAll(Submitted(b))
  }

  function WalkAll(bs: seq<Bio>): seq<Visit>
    decreases SizeAll(bs), 2
  {
    if bs == [] then [] else Walk(bs[0]) + WalkAll(bs[1..])
  }

  lemma {:induction false} WalkConcat(a: seq<Bio>, b: seq<Bio>)
    ensures WalkAll(a + b) == WalkAll(a) + WalkAll(b)
  {
    if a == [] {
      assert a + b == b;
    } else {
      assert (a + b)[1..] == a[1..] + b;
      WalkConcat(a[1..], b);
    }
  }

  // ---------------------------------------------------------------- every bio once

  function Times(vs: seq<Visit>, v: Visit): nat {
    if vs == [] then 0 else (if vs[0] == v then 1 else 0) + Times(vs[1..], v)
  }

  lemma {:induction false} TimesConcat(a: seq<Visit>, b: seq<Visit>, v: Visit)
    ensures Times(a + b, v) == Times(a, v) + Times(b, v)
  {
    if a == [] {
      assert a + b == b;
    } else {
      assert (a + b)[1..] == a[1..] + b;
      TimesConcat(a[1..], b, v);
    }
  }

  /** How often `v.id` is submitted in the tree, below queues that can be entered and past the checks, itself to a queue
      that can be entered or not, as `v` says. */
  function Occurs(b: Bio, v: Visit): nat
    decreases b, 1
  {
    (if b.id == v.id && b.enters == v.Made? then 1 else 0) + if b.enters then OccursAll(b.kids, v) else 0
  }

  function OccursAll(bs: seq<Bio>, v: Visit): nat
    decreases bs, 0
  {
    if bs == [] then 0 else (if bs[0].passes then Occurs(bs[0], v) else 0) + OccursAll(bs[1..], v)
  }

  lemma {:induction false} OccursConcat(a: seq<Bio>, b: seq<Bio>, v: Visit)
    ensures OccursAll(a + b, v) == OccursAll(a, v) + OccursAll(b, v)
  {
    if a == [] {
      assert a + b == b;
    } else {
      assert (a + b)[1..] == a[1..] + b;
      OccursConcat(a[1..], b, v);
    }
  }

  lemma {:induction false} OccursFor(bs: seq<Bio>, q: nat, v: Visit)
    ensures OccursAll(For(bs, q, false), v) + OccursAll(For(bs, q, true), v) == OccursAll(bs, v)
  {
    if bs != [] {
      OccursFor(bs[1..], q, v);
      assert ([bs[0]] + For(bs[1..], q, true))[1..] == For(bs[1..], q, true);
      assert ([bs[0]] + For(bs[1..], q, false))[1..] == For(bs[1..], q, false);
    }
  }

  lemma {:induction false} OccursPassing(bs: seq<Bio>, v: Visit)
    ensures OccursAll(Passing(bs), v) == OccursAll(bs, v)
  {
    if bs != [] {
      OccursPassing(bs[1..], v);
      assert ([bs[0]] + Passing(bs[1..]))[1..] == Passing(bs[1..]);
    }
  }

  predicate AllPass(bs: seq<Bio>) {
    forall x :: x in bs ==> x.passes
  }

  /** The walk visits every submitted bio exactly as often as it is submitted, and hands it to its make_request_fn
      exactly when its queue can be entered. */
  lemma {:induction false} WalkVisits(b: Bio, v: Visit)
    ensures Times(Walk(b), v) == Occurs(b, v)
    decreases Size(b), 1
  {
    var first := [VisitOf(b)];
    TimesConcat(first, WalkAll(Submitted(b)), v);
    assert first[1..] == [];
    forall x | x in Submitted(b) ensures x.passes {
      SubmittedIs(b, x);
    }
    WalkAllVisits(Submitted(b), v);
    if b.enters {
      var kids := Passing(b.kids);
      OccursConcat(For(kids, b.queue, false), For(kids, b.queue, true), v);
      OccursFor(kids, b.queue, v);
      OccursPassing(b.kids, v);
    }
  }

  lemma {:induction false} WalkAllVisits(bs: seq<Bio>, v: Visit)
    requires AllPass(bs)
    ensures Times(WalkAll(bs), v) == OccursAll(bs, v)
    decreases SizeAll(bs), 2
  {
    if bs != [] {
      TimesConcat(Walk(bs[0]), WalkAll(bs[1..]), v);
      WalkVisits(bs[0], v);
      WalkAllVisits(bs[1..], v);
    }
  }

  // ---------------------------------------------------------------- in which order

  /** `x` stands before `y`. */
  predicate Before(bs: seq<Bio>, x: Bio, y: Bio) {
    exists i, j :: 0 <= i < j < |bs| && bs[i] == x && bs[j] == y
  }

  lemma {:induction false} PassingIn(bs: seq<Bio>, x: Bio)
    ensures x in Passing(bs) <==> x in bs && x.passes
  {
    if bs != [] {
      PassingIn(bs[1..], x);
    }
  }

  lemma {:induction false} ForIn(bs: seq<Bio>, q: nat, same: bool, x: Bio)
    ensures x in For(bs, q, same) <==> x in bs && (x.queue == q) == same
  {
    if bs != [] {
      ForIn(bs[1..], q, same, x);
    }
  }

  /** A bio submits those of its children that pass the checks, if its queue can be entered. */
  lemma SubmittedIs(b: Bio, x: Bio)
    ensures x in Submitted(b) <==> b.enters && x in b.kids && x.passes
  {
    var kids := Passing(b.kids);
    PassingIn(b.kids, x);
    ForIn(kids, b.queue, false, x);
    ForIn(kids, b.queue, true, x);
  }

  lemma BeforeCons(bs: seq<Bio>, h: Bio, x: Bio, y: Bio)
    ensures Before(bs, x, y) ==> Before([h] + bs, x, y)
    ensures y in bs ==> Before([h] + bs, h, y)
  {
    if Before(bs, x, y) {
      var i, j :| 0 <= i < j < |bs| && bs[i] == x && bs[j] == y;
      assert ([h] + bs)[i + 1] == x && ([h] + bs)[j + 1] == y;
    }
    if y in bs {
      var j :| 0 <= j < |bs| && bs[j] == y;
      assert ([h] + bs)[0] == h && ([h] + bs)[j + 1] == y;
    }
  }

  lemma BeforeTail(bs: seq<Bio>, x: Bio, y: Bio)
    requires Before(bs, x, y)
    ensures (x == bs[0] && y in bs[1..]) || Before(bs[1..], x, y)
  {
    var i, j :| 0 <= i < j < |bs| && bs[i] == x && bs[j] == y;
    if i > 0 {
      assert bs[1..][i - 1] == x && bs[1..][j - 1] == y;
    } else {
      assert bs[1..][j - 1] == y;
    }
  }

  lemma {:induction false} PassingOrder(bs: seq<Bio>, x: Bio, y: Bio)
    requires Before(bs, x, y) && x.passes && y.passes
    ensures Before(Passing(bs), x, y)
  {
    BeforeTail(bs, x, y);
    var rest := Passing(bs[1..]);
    BeforeCons(rest, bs[0], x, y);
    PassingIn(bs[1..], y);
    if Before(bs[1..], x, y) {
      PassingOrder(bs[1..], x, y);
    }
  }

  lemma {:induction false} ForOrder(bs: seq<Bio>, q: nat, same: bool, x: Bio, y: Bio)
    requires Before(bs, x, y) && (x.queue == q) == same && (y.queue == q) == same
    ensures Before(For(bs, q, same), x, y)
  {
    BeforeTail(bs, x, y);
    var rest := For(bs[1..], q, same);
    BeforeCons(rest, bs[0], x, y);
    ForIn(bs[1..], q, same, y);
    if Before(bs[1..], x, y) {
      ForOrder(bs[1..], q, same, x, y);
    }
  }

  lemma BeforeConcat(a: seq<Bio>, b: seq<Bio>, x: Bio, y: Bio)
    ensures Before(a, x, y) || Before(b, x, y) || (x in a && y in b) ==> Before(a + b, x, y)
  {
    if Before(a, x, y) {
      var i, j :| 0 <= i < j < |a| && a[i] == x && a[j] == y;
      assert (a + b)[i] == x && (a + b)[j] == y;
    } else if Before(b, x, y) {
      var i, j :| 0 <= i < j < |b| && b[i] == x && b[j] == y;
      assert (a + b)[|a| + i] == x && (a + b)[|a| + j] == y;
    } else if x in a && y in b {
      var i, j :| 0 <= i < |a| && a[i] == x && 0 <= j < |b| && b[j] == y;
      assert (a + b)[i] == x && (a + b)[|a| + j] == y;
    }
  }

  /** Of what a bio submits, that for lower devices goes first; within each kind the order of submission stays. */
  lemma SubmittedInOrder(b: Bio, x: Bio, y: Bio)
    requires b.enters && x in b.kids && y in b.kids && x.passes && y.passes
    requires (x.queue != b.queue && y.queue == b.queue) || (Before(b.kids, x, y) && (x.queue == b.queue <==> y.queue == b.queue))
    ensures Before(Submitted(b), x, y)
  {
    var kids := Passing(b.kids);
    PassingIn(b.kids, x);
    PassingIn(b.kids, y);
    var (lower, same) := (For(kids, b.queue, false), For(kids, b.queue, true));
    ForIn(kids, b.queue, false, x);
    ForIn(kids, b.queue, true, y);
    if x.queue == b.queue || y.queue != b.queue {
      PassingOrder(b.kids, x, y);
      ForOrder(kids, b.queue, x.queue == b.queue, x, y);
    }
    BeforeConcat(lower, same, x, y);
  }

  /** `a` is in `vs` in one piece, at `i`. */
  predicate Has(vs: seq<Visit>, a: seq<Visit>, i: nat) {
    i + |a| <= |vs| && vs[i..i + |a|] == a
  }

  /** `b` is in `vs` after `a`, each in one piece. */
  ghost predicate InTurn(vs: seq<Visit>, a: seq<Visit>, b: seq<Visit>) {
    exists i: nat, j: nat :: Has(vs, a, i) && Has(vs, b, j) && i + |a| <= j
  }

  lemma HasCons(h: seq<Visit>, vs: seq<Visit>, a: seq<Visit>, i: nat)
    requires Has(vs, a, i)
    ensures Has(h + vs, a, |h| + i)
  {
    assert (h + vs)[|h| + i..|h| + i + |a|] == a;
  }

  lemma InTurnCons(h: seq<Visit>, vs: seq<Visit>, a: seq<Visit>, b: seq<Visit>)
    requires InTurn(vs, a, b)
    ensures InTurn(h + vs, a, b)
  {
    var i: nat, j: nat :| Has(vs, a, i) && Has(vs, b, j) && i + |a| <= j;
    HasCons(h, vs, a, i);
    HasCons(h, vs, b, j);
  }

  lemma {:induction false} WalkAllHas(bs: seq<Bio>, y: Bio) returns (j: nat)
    requires y in bs
    ensures Has(WalkAll(bs), Walk(y), j)
  {
    if bs[0] == y {
      j := 0;
    } else {
      j := WalkAllHas(bs[1..], y);
      HasCons(Walk(bs[0]), WalkAll(bs[1..]), Walk(y), j);
      j := |Walk(bs[0])| + j;
    }
  }

  lemma {:induction false} WalkAllInOrder(bs: seq<Bio>, x: Bio, y: Bio)
    requires Before(bs, x, y)
    ensures InTurn(WalkAll(bs), Walk(x), Walk(y))
  {
    BeforeTail(bs, x, y);
    var (h, rest) := (Walk(bs[0]), WalkAll(bs[1..]));
    if Before(bs[1..], x, y) {
      WalkAllInOrder(bs[1..], x, y);
      InTurnCons(h, rest, Walk(x), Walk(y));
    } else {
      var k := WalkAllHas(bs[1..], y);
      HasCons(h, rest, Walk(y), k);
      assert Has(h + rest, h, 0);
    }
  }

  /** The order in which visits happen: of two bios that one make_request_fn submits, everything below the one for a
      lower device, or else the one submitted first, is visited before anything below the other. */
  lemma LowerDevicesFirst(b: Bio, x: Bio, y: Bio)
    requires b.enters && x in b.kids && y in b.kids && x.passes && y.passes
    requires (x.queue != b.queue && y.queue == b.queue) || (Before(b.kids, x, y) && (x.queue == b.queue <==> y.queue == b.queue))
    ensures Walk(b)[0] == Made(b.id) && InTurn(Walk(b), Walk(x), Walk(y))
  {
    SubmittedInOrder(b, x, y);
    WalkAllInOrder(Submitted(b), x, y);
    InTurnCons([VisitOf(b)], WalkAll(Submitted(b)), Walk(x), Walk(y));
  }

  // ---------------------------------------------------------------- the loop

  /** make_request_fn: each bio it submits enters generic_make_request again, which only lists it. */
  method MakeRequestFn(b: Bio) returns (list: seq<Bio>)
    ensures list == Passing(b.kids)
  {
    list := [];
    var i := 0;
    assert b.kids[..0] == [];
    while i < |b.kids|
      invariant 0 <= i <= |b.kids| && list == Passing(b.kids[..i])
    {
      PassingAppend(b.kids[..i], b.kids[i]);
      assert b.kids[..i + 1] == b.kids[..i] + [b.kids[i]];
      if b.kids[i].passes {
        list := list + [b.kids[i]];
      }
      i := i + 1;
    }
    assert b.kids[..i] == b.kids;
  }

  lemma {:induction false} PassingAppend(bs: seq<Bio>, b: Bio)
    ensures Passing(bs + [b]) == Passing(bs) + if b.passes then [b] else []
  {
    if bs == [] {
      assert [] + [b] == [b] && [b][1..] == [];
    } else {
      assert (bs + [b])[1..] == bs[1..] + [b];
      PassingAppend(bs[1..], b);
    }
  }

  /** The inner loop: new bios are sorted into those for lower devices and those for the same one. */
  method Partition(list: seq<Bio>, q: nat) returns (lower: seq<Bio>, same: seq<Bio>)
    ensures lower == For(list, q, false) && same == For(list, q, true)
  {
    lower, same := [], [];
    var todo := list;
    ghost var done: seq<Bio> := [];
    while todo != []
      invariant done + todo == list && lower == For(done, q, false) && same == For(done, q, true)
      decreases |todo|
    {
      var b := todo[0];
      ForAppend(done, b, q, false);
      ForAppend(done, b, q, true);
      done := done + [b];
      if b.queue == q {
        same := same + [b];
      } else {
        lower := lower + [b];
      }
      todo := todo[1..];
    }
    assert done == list;
  }

  /** One turn of the outer loop. */
  method HandleBio(b: Bio, list: seq<Bio>) returns (v: Visit, list': seq<Bio>)
    ensures v == VisitOf(b) && list' == Submitted(b) + list
  {
    if b.enters {
      var newer := MakeRequestFn(b);
      v := Made(b.id);
      var lower, same := Partition(newer, b.queue);
      list' := lower + same + list;
    } else {
      v := Failed(b.id);
      list' := list;
      assert [] + list == list;
    }
  }

  lemma WalkStep(vs: seq<Visit>, b: Bio, list: seq<Bio>)
    ensures vs + (Walk(b) + WalkAll(list)) == (vs + [VisitOf(b)]) + WalkAll(Submitted(b) + list)
  {
    WalkConcat(Submitted(b), list);
    Regroup(vs, VisitOf(b), WalkAll(Submitted(b)), WalkAll(list));
  }

  lemma Regroup<T>(vs: seq<T>, v: T, a: seq<T>, b: seq<T>)
    ensures vs + (([v] + a) + b) == (vs + [v]) + (a + b)
  {
  }

  /** generic_make_request, called when no other call is active. */
  method GenericMakeRequest(bio: Bio) returns (visits: seq<Visit>)
    ensures visits == if bio.passes then Walk(bio) else []
  {
    visits := [];
    if !bio.passes {
      return;
    }
    var b := bio;
    var list: seq<Bio> := [];
    assert visits + (Walk(b) + WalkAll(list)) == Walk(bio);
    while true
      invariant visits + (Walk(b) + WalkAll(list)) == Walk(bio)
      decreases Size(b) + SizeAll(list)
    {
      WalkStep(visits, b, list);
      SizeConcat(Submitted(b), list);
      var v, rest := HandleBio(b, list);
      visits := visits + [v];
      if rest == [] {
        return;
      }
      b, list := rest[0], rest[1..];
    }
  }
}
