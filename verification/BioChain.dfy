/** Chained bios: bio_chain, bio_endio and what they call, as in block/bio.c.

    A bio may be chained to a parent; the parent's bi_end_io must not run before the bio has ended.
    `completed`, `failed`, `ended`, `fired` and `rank` record what has happened and are not read by
    the code: the driver has called bio_endio on the bio, with an error; the bio is done, its own
    completion and all children included; how often its bi_end_io has run; its place below its root.
 */
module BioChain {
  import opened Common

  datatype Bio = Bio(parent: Option<nat>, remaining: int, chain: bool, error: int,
                     completed: bool, failed: bool, ended: bool, fired: nat, rank: nat)

  type Bios = seq<Bio>

  /** bio_init: one reference, not chained. */
  function Fresh(): Bio {
    Bio(None, 1, false, 0, false, false, false, 0, 0)
  }

  // ---------------------------------------------------------------- counting children

  predicate ChildOf(bs: Bios, c: nat, b: nat)
    requires c < |bs|
  {
    bs[c].parent == Some(b)
  }

  /** Children of `b` below `n` that have not ended. */
  function LiveKids(bs: Bios, b: nat, n: nat): nat
    requires n <= |bs|
  {
    if n == 0 then 0 else LiveKids(bs, b, n - 1) + if ChildOf(bs, n - 1, b) && !bs[n - 1].ended then 1 else 0
  }

  lemma {:induction false} KidsZero(bs: Bios, b: nat, n: nat, c: nat)
    requires c < n <= |bs| && LiveKids(bs, b, n) == 0 && ChildOf(bs, c, b)
    ensures bs[c].ended
  {
    if c < n - 1 {
      KidsZero(bs, b, n - 1, c);
    }
  }

  lemma {:induction false} KidsSome(bs: Bios, b: nat, n: nat) returns (c: nat)
    requires n <= |bs| && LiveKids(bs, b, n) > 0
    ensures c < n && ChildOf(bs, c, b) && !bs[c].ended
  {
    if ChildOf(bs, n - 1, b) && !bs[n - 1].ended {
      c := n - 1;
    } else {
      c := KidsSome(bs, b, n - 1);
    }
  }

  /** Changing bio `i` changes the counts of its old and new parents only. */
  lemma {:induction false} KidsUpdate(bs: Bios, i: nat, r: Bio, b: nat, n: nat)
    requires i < |bs| && n <= |bs|
    ensures LiveKids(bs[i := r], b, n) + (if i < n && bs[i].parent == Some(b) && !bs[i].ended then 1 else 0) ==
            LiveKids(bs, b, n) + (if i < n && r.parent == Some(b) && !r.ended then 1 else 0)
  {
    if n > 0 {
      KidsUpdate(bs, i, r, b, n - 1);
    }
  }

  /** What a bio still waits for: its own completion and its children. */
  function Live(bs: Bios, b: nat): nat
    requires b < |bs|
  {
    LiveKids(bs, b, |bs|) + if bs[b].completed then 0 else 1
  }

  // ---------------------------------------------------------------- the invariant

  /** The counter of a bio, given `debt` calls of bio_endio still to come for what has happened. */
  predicate Counted(bs: Bios, b: nat, debt: nat)
    requires b < |bs|
  {
    var x := bs[b];
    if x.ended then Live(bs, b) == 0 && debt == 0
    else
      && Live(bs, b) + debt > 0
      && (if x.chain then x.remaining == Live(bs, b) + debt else x.remaining == 1 && LiveKids(bs, b, |bs|) == 0 && Live(bs, b) + debt == 1)
  }

  /** An ended child with an error. */
  predicate BadChild(bs: Bios, b: nat, c: nat)
    requires c < |bs|
  {
    ChildOf(bs, c, b) && bs[c].ended && bs[c].error != 0
  }

  predicate Blamed(bs: Bios, b: nat)
    requires b < |bs|
  {
    bs[b].failed || exists c :: 0 <= c < |bs| && BadChild(bs, b, c)
  }

  predicate Local(bs: Bios, b: nat)
    requires b < |bs|
  {
    var x := bs[b];
    && (x.parent.Some? ==> x.parent.value < |bs| && bs[x.parent.value].rank < x.rank)
    && x.fired == (if x.ended && x.parent.None? then 1 else 0)
    && (x.error != 0 <==> Blamed(bs, b))
    && (x.failed ==> x.completed)
    && (x.ended ==> x.completed)
  }

  /** All is well, but for one call of bio_endio due for `d`, if `owed`. */
  predicate Inv(bs: Bios, d: nat, owed: bool) {
    forall b :: 0 <= b < |bs| ==> Local(bs, b) && Counted(bs, b, if owed && b == d then 1 else 0)
  }

  // ---------------------------------------------------------------- bio_endio

  predicate Ranked(bs: Bios) {
    forall b :: 0 <= b < |bs| ==> RankedAt(bs, b)
  }

  predicate RankedAt(bs: Bios, b: nat)
    requires b < |bs|
  {
    bs[b].parent.Some? ==> bs[b].parent.value < |bs| && bs[bs[b].parent.value].rank < bs[b].rank
  }

  /** bio_remaining_done says that something is still outstanding. */
  predicate Waits(x: Bio) {
    x.chain && x.remaining - 1 != 0
  }

  function Done(x: Bio): Bio {
    if x.chain then x.(remaining := x.remaining - 1, chain := false, ended := true) else x.(ended := true)
  }

  /** __bio_chain_endio: the first error sticks. */
  function Inherit(p: Bio, error: int): Bio {
    if p.error == 0 then p.(error := error) else p
  }

  /** bio `b` is done and hands over to its parent. */
  function Passed(bs: Bios, b: nat): (r: Bios)
    requires b < |bs| && RankedAt(bs, b) && bs[b].parent.Some?
    ensures |r| == |bs|
  {
    var p := bs[b].parent.value;
    bs[b := Done(bs[b])][p := Inherit(bs[p], bs[b].error)]
  }

  lemma PassedRanked(bs: Bios, b: nat)
    requires Ranked(bs) && b < |bs| && RankedAt(bs, b) && bs[b].parent.Some?
    ensures Ranked(Passed(bs, b))
  {
    var r := Passed(bs, b);
    forall c | 0 <= c < |bs| ensures RankedAt(r, c) {
      assert RankedAt(bs, c) && r[c].parent == bs[c].parent && r[c].rank == bs[c].rank;
    }
  }

  /** bio_endio. */
  function EndIo(bs: Bios, b: nat): (r: Bios)
    requires Ranked(bs) && b < |bs|
    ensures |r| == |bs|
    decreases bs[b].rank
  {
    assert RankedAt(bs, b);
    var x := bs[b];
    if Waits(x) then bs[b := x.(remaining := x.remaining - 1)]
    else if x.parent.None? then bs[b := Done(x).(fired := x.fired + 1)]
    else PassedRanked(bs, b); EndIo(Passed(bs, b), x.parent.value)
  }

  lemma BlamedSame(bs: Bios, bs': Bios, b: nat)
    requires |bs| == |bs'| && b < |bs| && bs[b].failed == bs'[b].failed
    requires forall c :: 0 <= c < |bs| ==> (BadChild(bs, b, c) <==> BadChild(bs', b, c))
    ensures Blamed(bs, b) <==> Blamed(bs', b)
  {
    if Blamed(bs, b) && !bs[b].failed {
      var c :| 0 <= c < |bs| && BadChild(bs, b, c);
      assert BadChild(bs', b, c);
    }
    if Blamed(bs', b) && !bs[b].failed {
      var c :| 0 <= c < |bs| && BadChild(bs', b, c);
      assert BadChild(bs, b, c);
    }
  }

  /** Waiting: only the counter of `d` changes. */
  lemma WaitKeeps(bs: Bios, d: nat)
    requires Inv(bs, d, true) && d < |bs| && Waits(bs[d])
    ensures Inv(bs[d := bs[d].(remaining := bs[d].remaining - 1)], d, false)
  {
    var r := bs[d].(remaining := bs[d].remaining - 1);
    var bs' := bs[d := r];
    forall b | 0 <= b < |bs'| ensures Local(bs', b) && Counted(bs', b, 0) {
      assert Local(bs, b) && Counted(bs, b, if b == d then 1 else 0);
      KidsUpdate(bs, d, r, b, |bs|);
      BlamedSame(bs, bs', b);
    }
  }

  /** A root is done: its bi_end_io runs. */
  lemma FireKeeps(bs: Bios, d: nat)
    requires Inv(bs, d, true) && d < |bs| && !Waits(bs[d]) && bs[d].parent.None?
    ensures Inv(bs[d := Done(bs[d]).(fired := bs[d].fired + 1)], d, false)
  {
    var r := Done(bs[d]).(fired := bs[d].fired + 1);
    var bs' := bs[d := r];
    forall b | 0 <= b < |bs'| ensures Local(bs', b) && Counted(bs', b, 0) {
      assert Local(bs, b) && Counted(bs, b, if b == d then 1 else 0);
      KidsUpdate(bs, d, r, b, |bs|);
      BlamedSame(bs, bs', b);
    }
  }

  lemma PassedBlame(bs: Bios, d: nat, b: nat)
    requires d < |bs| && b < |bs| && RankedAt(bs, d) && bs[d].parent.Some? && !bs[d].ended && !bs[bs[d].parent.value].ended
    requires bs[b].error != 0 <==> Blamed(bs, b)
    ensures Passed(bs, d)[b].error != 0 <==> Blamed(Passed(bs, d), b)
  {
    var p, bs' := bs[d].parent.value, Passed(bs, d);
    if b == p {
      if bs[d].error != 0 {
        assert BadChild(bs', p, d);
      } else {
        PassedBlameSame(bs, d, p);
        BlamedSame(bs, bs', p);
      }
    } else {
      PassedBlameOther(bs, d, b);
      BlamedSame(bs, bs', b);
    }
  }

  lemma PassedBlameSame(bs: Bios, d: nat, p: nat)
    requires d < |bs| && p < |bs| && RankedAt(bs, d) && bs[d].parent == Some(p) && !bs[d].ended && bs[d].error == 0
    ensures forall c :: 0 <= c < |bs| ==> (BadChild(bs, p, c) <==> BadChild(Passed(bs, d), p, c))
  {
    var bs' := Passed(bs, d);
    forall c | 0 <= c < |bs| ensures BadChild(bs, p, c) <==> BadChild(bs', p, c) {
      assert c != d && c != p ==> bs'[c] == bs[c];
    }
  }

  lemma PassedBlameOther(bs: Bios, d: nat, b: nat)
    requires d < |bs| && b < |bs| && RankedAt(bs, d) && bs[d].parent.Some? && bs[d].parent != Some(b)
    requires !bs[d].ended && !bs[bs[d].parent.value].ended
    ensures forall c :: 0 <= c < |bs| ==> (BadChild(bs, b, c) <==> BadChild(Passed(bs, d), b, c))
  {
    var bs' := Passed(bs, d);
    forall c | 0 <= c < |bs| ensures BadChild(bs, b, c) <==> BadChild(bs', b, c) {
      assert c != d && c != bs[d].parent.value ==> bs'[c] == bs[c];
    }
  }

  /** The counts of the other bios, when `d` has ended and told its parent. */
  lemma PassedKids(bs: Bios, d: nat, b: nat)
    requires d < |bs| && b < |bs| && RankedAt(bs, d) && bs[d].parent.Some? && !bs[d].ended
    ensures LiveKids(Passed(bs, d), b, |bs|) + (if bs[d].parent == Some(b) then 1 else 0) == LiveKids(bs, b, |bs|)
  {
    var p := bs[d].parent.value;
    KidsUpdate(bs, d, Done(bs[d]), b, |bs|);
    KidsUpdate(bs[d := Done(bs[d])], p, Inherit(bs[p], bs[d].error), b, |bs|);
  }

  lemma PassedCount(bs: Bios, d: nat, b: nat)
    requires d < |bs| && b < |bs| && RankedAt(bs, d) && bs[d].parent.Some?
    requires Counted(bs, d, 1) && !Waits(bs[d]) && !bs[bs[d].parent.value].ended
    requires Counted(bs, b, if b == d then 1 else 0)
    ensures Counted(Passed(bs, d), b, if Some(b) == bs[d].parent then 1 else 0)
  {
    PassedKids(bs, d, b);
    PassedKids(bs, d, d);
  }

  lemma PassKeeps(bs: Bios, d: nat)
    requires Inv(bs, d, true) && d < |bs| && !Waits(bs[d]) && bs[d].parent.Some? && RankedAt(bs, d)
    ensures Inv(Passed(bs, d), bs[d].parent.value, true)
  {
    var p, bs' := bs[d].parent.value, Passed(bs, d);
    assert Local(bs, d) && Counted(bs, d, 1);
    ParentLive(bs, d);
    forall b | 0 <= b < |bs'| ensures Local(bs', b) && Counted(bs', b, if b == p then 1 else 0) {
      assert Local(bs, b) && Counted(bs, b, if b == d then 1 else 0);
      PassedCount(bs, d, b);
      PassedBlame(bs, d, b);
      PassedLocal(bs, d, b);
    }
  }

  lemma ParentLive(bs: Bios, d: nat)
    requires Inv(bs, d, true) && d < |bs| && bs[d].parent.Some? && RankedAt(bs, d) && !bs[d].ended
    ensures !bs[bs[d].parent.value].ended
  {
    var p := bs[d].parent.value;
    assert Local(bs, p) && Counted(bs, p, 0);
    if LiveKids(bs, p, |bs|) == 0 {
      KidsZero(bs, p, |bs|, d);
    }
  }

  lemma PassedLocal(bs: Bios, d: nat, b: nat)
    requires d < |bs| && b < |bs| && RankedAt(bs, d) && bs[d].parent.Some? && bs[d].completed && Local(bs, b)
    requires Passed(bs, d)[b].error != 0 <==> Blamed(Passed(bs, d), b)
    requires !bs[d].ended && bs[d].fired == 0
    ensures Local(Passed(bs, d), b)
  {
    var bs' := Passed(bs, d);
    assert bs[b].parent.Some? ==> bs'[bs[b].parent.value].rank == bs[bs[b].parent.value].rank;
  }

  lemma InvRanked(bs: Bios, d: nat, owed: bool)
    requires Inv(bs, d, owed)
    ensures Ranked(bs)
  {
    forall b | 0 <= b < |bs| ensures RankedAt(bs, b) {
      assert Local(bs, b);
    }
  }

  /** bio_endio settles the call that was due. */
  lemma {:induction false} EndIoKeeps(bs: Bios, d: nat)
    requires Inv(bs, d, true) && d < |bs| && Ranked(bs)
    ensures Inv(EndIo(bs, d), d, false)
    decreases bs[d].rank
  {
    assert RankedAt(bs, d);
    if Waits(bs[d]) {
      WaitKeeps(bs, d);
    } else if bs[d].parent.None? {
      FireKeeps(bs, d);
    } else {
      PassedRanked(bs, d);
      PassKeeps(bs, d);
      EndIoKeeps(Passed(bs, d), bs[d].parent.value);
      Unowed(EndIo(Passed(bs, d), bs[d].parent.value), bs[d].parent.value, d);
    }
  }

  lemma Unowed(bs: Bios, d: nat, e: nat)
    requires Inv(bs, d, false)
    ensures Inv(bs, e, false)
  {
    forall b | 0 <= b < |bs| ensures Local(bs, b) && Counted(bs, b, 0) {
    }
  }

  /** The BUG_ON of bio_remaining_done cannot fire. */
  lemma CounterPositive(bs: Bios, d: nat)
    requires Inv(bs, d, true) && d < |bs| && bs[d].chain && !bs[d].ended
    ensures bs[d].remaining > 0
  {
    assert Local(bs, d) && Counted(bs, d, 1);
  }

  // ---------------------------------------------------------------- completing and chaining

  /** The driver ends its own part of bio `b`; on failure it sets bi_error. */
  function Completing(bs: Bios, b: nat, err: int): (r: Bios)
    requires b < |bs|
    ensures |r| == |bs|
  {
    bs[b := bs[b].(completed := true, failed := err != 0, error := if err != 0 then err else bs[b].error)]
  }

  lemma CompletingKeeps(bs: Bios, d: nat, err: int)
    requires Inv(bs, d, false) && d < |bs| && !bs[d].completed
    ensures Inv(Completing(bs, d, err), d, true)
  {
    var bs' := Completing(bs, d, err);
    assert Local(bs, d);
    forall b | 0 <= b < |bs'| ensures Local(bs', b) && Counted(bs', b, if b == d then 1 else 0) {
      assert Local(bs, b) && Counted(bs, b, 0);
      KidsUpdate(bs, d, bs'[d], b, |bs|);
      CompletingBlame(bs, d, err, b);
    }
  }

  lemma CompletingBlame(bs: Bios, d: nat, err: int, b: nat)
    requires d < |bs| && b < |bs| && !bs[d].ended && !bs[d].failed && (bs[b].error != 0 <==> Blamed(bs, b))
    ensures Completing(bs, d, err)[b].error != 0 <==> Blamed(Completing(bs, d, err), b)
  {
    var bs' := Completing(bs, d, err);
    forall c | 0 <= c < |bs| ensures BadChild(bs, b, c) <==> BadChild(bs', b, c) {
    }
    if !bs'[b].failed {
      BlamedSame(bs, bs', b);
    }
  }

  /** The root above a bio. */
  function RootOf(bs: Bios, b: nat): (r: nat)
    requires Ranked(bs) && b < |bs|
    ensures r < |bs| && bs[r].parent.None?
    decreases bs[b].rank
  {
    assert RankedAt(bs, b);
    if bs[b].parent.None? then b else RootOf(bs, bs[b].parent.value)
  }

  /** The tree of `b` moved below a bio of rank `k`. */
  function Lowered(bs: Bios, b: nat, k: nat): (r: Bios)
    requires Ranked(bs)
    ensures |r| == |bs|
  {
    seq(|bs|, i requires 0 <= i < |bs| => if RootOf(bs, i) == b then bs[i].(rank := bs[i].rank + k + 1) else bs[i])
  }

  /** bio_chain. */
  function Chained(bs: Bios, b: nat, p: nat): (r: Bios)
    requires Ranked(bs) && b < |bs| && p < |bs|
    ensures |r| == |bs|
  {
    var low := Lowered(bs, b, bs[p].rank);
    low[b := low[b].(parent := Some(p))][p := low[p].(chain := true, remaining := low[p].remaining + 1)]
  }

  /** When bio_chain may be called: the BUG_ON, both bios not ended, and no cycle. */
  predicate MayChain(bs: Bios, b: nat, p: nat) {
    && Ranked(bs) && b < |bs| && p < |bs| && bs[b].parent.None?
    && !bs[b].completed && !bs[b].ended && !bs[p].ended && RootOf(bs, p) != b
  }

  lemma ChainedFields(bs: Bios, b: nat, p: nat, i: nat)
    requires MayChain(bs, b, p) && i < |bs|
    ensures b != p
    ensures var x, y := bs[i], Chained(bs, b, p)[i];
      && y.ended == x.ended && y.error == x.error && y.failed == x.failed && y.completed == x.completed && y.fired == x.fired
      && y.parent == (if i == b then Some(p) else x.parent)
      && y.rank == x.rank + (if RootOf(bs, i) == b then bs[p].rank + 1 else 0)
      && (if i == p then y.chain && y.remaining == x.remaining + 1 else y.chain == x.chain && y.remaining == x.remaining)
  {
  }

  lemma {:induction false} KidsAgree(bs: Bios, bs': Bios, b: nat, n: nat, extra: nat, p: nat)
    requires n <= |bs| == |bs'| && extra < |bs| && bs[extra].parent.None? && !bs[extra].ended && bs'[extra].parent == Some(p)
    requires forall i :: 0 <= i < |bs| ==> bs'[i].ended == bs[i].ended && (i != extra ==> bs'[i].parent == bs[i].parent)
    ensures LiveKids(bs', b, n) == LiveKids(bs, b, n) + if extra < n && b == p then 1 else 0
  {
    if n > 0 {
      KidsAgree(bs, bs', b, n - 1, extra, p);
    }
  }

  lemma ChainedKeeps(bs: Bios, b: nat, p: nat, d: nat)
    requires Inv(bs, d, false) && MayChain(bs, b, p)
    ensures Inv(Chained(bs, b, p), d, false)
  {
    var bs' := Chained(bs, b, p);
    forall i | 0 <= i < |bs| ensures bs'[i].ended == bs[i].ended && (i != b ==> bs'[i].parent == bs[i].parent) {
      ChainedFields(bs, b, p, i);
    }
    forall i | 0 <= i < |bs'| ensures Local(bs', i) && Counted(bs', i, 0) {
      assert Local(bs, i) && Counted(bs, i, 0);
      ChainedFields(bs, b, p, i);
      ChainedFields(bs, b, p, b);
      KidsAgree(bs, bs', i, |bs|, b, p);
      ChainedBlame(bs, b, p, i);
      ChainedRank(bs, b, p, i);
    }
  }

  lemma ChainedBlame(bs: Bios, b: nat, p: nat, i: nat)
    requires MayChain(bs, b, p) && i < |bs|
    ensures Blamed(bs, i) <==> Blamed(Chained(bs, b, p), i)
  {
    var bs' := Chained(bs, b, p);
    ChainedFields(bs, b, p, i);
    forall c | 0 <= c < |bs| ensures BadChild(bs, i, c) <==> BadChild(bs', i, c) {
      ChainedFields(bs, b, p, c);
    }
    BlamedSame(bs, bs', i);
  }

  lemma ChainedRank(bs: Bios, b: nat, p: nat, i: nat)
    requires MayChain(bs, b, p) && i < |bs|
    ensures RankedAt(Chained(bs, b, p), i)
  {
    ChainedFields(bs, b, p, i);
    assert RankedAt(bs, i);
    if i == b {
      ChainedFields(bs, b, p, p);
    } else if bs[i].parent.Some? {
      ChainedFields(bs, b, p, bs[i].parent.value);
    }
  }

  // ---------------------------------------------------------------- runs

  datatype Event =
    | Chain(b: nat, parent: nat)
    | Complete(b: nat, err: int)

  /** An event the callers may cause; others are skipped. */
  function Apply(bs: Bios, e: Event): (r: Bios)
    requires Ranked(bs)
    ensures |r| == |bs|
  {
    match e
    case Chain(b, p) => if MayChain(bs, b, p) then Chained(bs, b, p) else bs
    case Complete(b, err) =>
      if b < |bs| && !bs[b].completed && Ranked(Completing(bs, b, err)) then EndIo(Completing(bs, b, err), b) else bs
  }

  lemma ApplyKeeps(bs: Bios, e: Event)
    requires Inv(bs, 0, false) && Ranked(bs)
    ensures Inv(Apply(bs, e), 0, false)
  {
    match e
    case Chain(b, p) =>
      if MayChain(bs, b, p) {
        ChainedKeeps(bs, b, p, 0);
      }
    case Complete(b, err) =>
      if b < |bs| && !bs[b].completed {
        Unowed(bs, 0, b);
        CompletingKeeps(bs, b, err);
        InvRanked(Completing(bs, b, err), b, true);
        EndIoKeeps(Completing(bs, b, err), b);
        Unowed(EndIo(Completing(bs, b, err), b), b, 0);
      }
  }

  function Run(n: nat, es: seq<Event>): (r: Bios)
    ensures |r| == n
  {
    if es == [] then seq(n, _ => Fresh())
    else
      var bs := Run(n, es[..|es| - 1]);
      if Ranked(bs) then Apply(bs, es[|es| - 1]) else bs
  }

  lemma {:induction false} NoKids(n: nat, b: nat, m: nat)
    requires m <= n
    ensures LiveKids(seq(n, _ => Fresh()), b, m) == 0
  {
    if m > 0 {
      NoKids(n, b, m - 1);
    }
  }

  lemma {:induction false} InvInEveryRun(n: nat, es: seq<Event>)
    ensures Inv(Run(n, es), 0, false) && Ranked(Run(n, es))
  {
    var bs := Run(n, es);
    if es == [] {
      forall b | 0 <= b < n ensures Local(bs, b) && Counted(bs, b, 0) {
        NoKids(n, b, n);
      }
    } else {
      InvInEveryRun(n, es[..|es| - 1]);
      ApplyKeeps(Run(n, es[..|es| - 1]), es[|es| - 1]);
    }
    InvRanked(bs, 0, false);
  }

  // ---------------------------------------------------------------- what a root sees

  /** `d` is `b` or is chained to it, directly or not. */
  predicate Below(bs: Bios, d: nat, b: nat)
    requires Ranked(bs) && d < |bs|
    decreases bs[d].rank
  {
    assert RankedAt(bs, d);
    d == b || (bs[d].parent.Some? && Below(bs, bs[d].parent.value, b))
  }

  lemma KidBelow(bs: Bios, d: nat, c: nat, b: nat)
    requires Ranked(bs) && d < |bs| && c < |bs| && b < |bs| && ChildOf(bs, c, b) && Below(bs, d, c)
    ensures Below(bs, d, b)
    decreases bs[d].rank
  {
    assert RankedAt(bs, d);
    assert RankedAt(bs, c);
    if d != c {
      KidBelow(bs, bs[d].parent.value, c, b);
    }
  }

  /** Below a bio that has ended, everything has. */
  lemma {:induction false} EndedBelow(bs: Bios, d: nat, b: nat)
    requires Inv(bs, 0, false) && Ranked(bs) && d < |bs| && b < |bs| && Below(bs, d, b) && bs[b].ended
    ensures bs[d].ended
    decreases bs[d].rank
  {
    assert RankedAt(bs, d);
    if d != b {
      var p := bs[d].parent.value;
      EndedBelow(bs, p, b);
      assert Local(bs, p) && Counted(bs, p, 0);
      KidsZero(bs, p, |bs|, d);
    }
  }

  /** A bio that has not ended waits for the driver, itself or below. */
  lemma {:induction false} WaitsBelow(bs: Bios, b: nat, top: nat) returns (d: nat)
    requires Inv(bs, 0, false) && Ranked(bs) && b < |bs| && !bs[b].ended
    requires forall i :: 0 <= i < |bs| ==> bs[i].rank <= top
    ensures d < |bs| && Below(bs, d, b) && !bs[d].completed
    decreases top - bs[b].rank
  {
    assert Local(bs, b) && Counted(bs, b, 0);
    if !bs[b].completed {
      d := b;
    } else {
      var c := KidsSome(bs, b, |bs|);
      assert RankedAt(bs, c);
      d := WaitsBelow(bs, c, top);
      KidBelow(bs, d, c, b);
    }
  }

  lemma {:induction false} ErrorRises(bs: Bios, d: nat, b: nat)
    requires Inv(bs, 0, false) && Ranked(bs) && d < |bs| && b < |bs| && Below(bs, d, b) && bs[b].ended && bs[d].error != 0
    ensures bs[b].error != 0
    decreases bs[d].rank
  {
    assert RankedAt(bs, d);
    if d != b {
      EndedBelow(bs, d, b);
      var p := bs[d].parent.value;
      assert BadChild(bs, p, d);
      assert Local(bs, p);
      ErrorRises(bs, p, b);
    }
  }

  lemma {:induction false} ErrorCause(bs: Bios, b: nat, top: nat) returns (d: nat)
    requires Inv(bs, 0, false) && Ranked(bs) && b < |bs| && bs[b].error != 0
    requires forall i :: 0 <= i < |bs| ==> bs[i].rank <= top
    ensures d < |bs| && Below(bs, d, b) && bs[d].failed
    decreases top - bs[b].rank
  {
    assert Local(bs, b);
    if bs[b].failed {
      d := b;
    } else {
      var c :| 0 <= c < |bs| && BadChild(bs, b, c);
      assert RankedAt(bs, c);
      d := ErrorCause(bs, c, top);
      KidBelow(bs, d, c, b);
    }
  }

  lemma {:induction false} TopRank(bs: Bios) returns (top: nat)
    ensures forall i :: 0 <= i < |bs| ==> bs[i].rank <= top
  {
    if bs == [] {
      top := 0;
    } else {
      var t := TopRank(bs[..|bs| - 1]);
      var last := bs[|bs| - 1].rank;
      top := if t > last then t else last;
      forall i | 0 <= i < |bs| ensures bs[i].rank <= top {
        if i < |bs| - 1 {
          assert bs[..|bs| - 1][i].rank <= t;
        }
      }
    }
  }

  /** The bi_end_io of a root runs at most once, and it has run exactly when the driver has completed
      every bio below it. */
  lemma RootFiresOnce(n: nat, es: seq<Event>, b: nat)
    requires b < n && Run(n, es)[b].parent.None?
    ensures var bs := Run(n, es);
      Ranked(bs) && bs[b].fired <= 1 && (bs[b].fired == 1 <==> forall d :: 0 <= d < n && Below(bs, d, b) ==> bs[d].completed)
  {
    InvInEveryRun(n, es);
    var bs := Run(n, es);
    assert Local(bs, b);
    if bs[b].fired == 1 {
      forall d | 0 <= d < n && Below(bs, d, b) ensures bs[d].completed {
        EndedBelow(bs, d, b);
        assert Local(bs, d);
      }
    } else {
      var top := TopRank(bs);
      var d := WaitsBelow(bs, b, top);
    }
  }

  /** A root that has run its bi_end_io shows an error exactly when it or some bio below it failed. */
  lemma RootSeesErrors(n: nat, es: seq<Event>, b: nat)
    requires b < n && Run(n, es)[b].fired == 1
    ensures var bs := Run(n, es);
      Ranked(bs) && (bs[b].error != 0 <==> exists d :: 0 <= d < n && Below(bs, d, b) && bs[d].failed)
  {
    InvInEveryRun(n, es);
    var bs := Run(n, es);
    assert Local(bs, b);
    if bs[b].error != 0 {
      var top := TopRank(bs);
      var d := ErrorCause(bs, b, top);
    } else {
      forall d | 0 <= d < n && Below(bs, d, b) ensures !bs[d].failed {
        assert Local(bs, d);
        if bs[d].failed {
          ErrorRises(bs, d, b);
        }
      }
    }
  }

  // ---------------------------------------------------------------- what the events say

  /** What the driver reported of bio `d` the first time, if anything. */
  function Reported(es: seq<Event>, d: nat): Option<int> {
    if es == [] then None
    else
      var (r, e) := (Reported(es[..|es| - 1], d), es[|es| - 1]);
      if r.Some? then r else if e.Complete? && e.b == d then Some(e.err) else None
  }

  lemma DoneFields(x: Bio)
    ensures var y := Done(x); y.parent == x.parent && y.completed == x.completed && y.failed == x.failed && y.rank == x.rank && y.error == x.error
  {
  }

  /** bio_endio leaves the chains, the reports and every error already there alone. */
  lemma {:induction false} EndIoFrame(bs: Bios, b: nat, i: nat)
    requires Ranked(bs) && b < |bs| && i < |bs|
    ensures var (x, y) := (bs[i], EndIo(bs, b)[i]);
      && y.parent == x.parent && y.completed == x.completed && y.failed == x.failed && y.rank == x.rank
      && (x.error != 0 ==> y.error == x.error)
    decreases bs[b].rank
  {
    assert RankedAt(bs, b);
    DoneFields(bs[b]);
    if !Waits(bs[b]) && bs[b].parent.Some? {
      PassedRanked(bs, b);
      EndIoFrame(Passed(bs, b), bs[b].parent.value, i);
    }
  }

  lemma CompleteFrame(bs: Bios, b: nat, err: int, i: nat)
    requires Ranked(bs) && b < |bs| && i < |bs| && Ranked(Completing(bs, b, err))
    ensures var (x, y) := (bs[i], EndIo(Completing(bs, b, err), b)[i]);
      && y.parent == x.parent && y.completed == (x.completed || i == b) && y.failed == (if i == b then err != 0 else x.failed)
      && (x.error != 0 && (i != b || err == 0) ==> y.error == x.error) && (i == b && err != 0 ==> y.error == err)
  {
    EndIoFrame(Completing(bs, b, err), b, i);
  }

  lemma CompletingRanked(bs: Bios, b: nat, err: int)
    requires Ranked(bs) && b < |bs|
    ensures Ranked(Completing(bs, b, err))
  {
    var r := Completing(bs, b, err);
    forall c | 0 <= c < |bs| ensures RankedAt(r, c) {
      assert RankedAt(bs, c) && r[c].parent == bs[c].parent && r[c].rank == bs[c].rank;
    }
  }

  /** In every run a bio is completed exactly when the driver has reported it, and failed exactly when the report was an
      error. */
  lemma {:induction false} CompletedAsReported(n: nat, es: seq<Event>, d: nat)
    requires d < n
    ensures var (x, r) := (Run(n, es)[d], Reported(es, d)); x.completed == r.Some? && x.failed == (r.Some? && r.value != 0)
  {
    if es != [] {
      var (front, e) := (es[..|es| - 1], es[|es| - 1]);
      CompletedAsReported(n, front, d);
      InvInEveryRun(n, front);
      var bs := Run(n, front);
      match e
      case Chain(b, p) => if MayChain(bs, b, p) { ChainedFields(bs, b, p, d); }
      case Complete(b, err) =>
        if b < n && !bs[b].completed {
          CompletingRanked(bs, b, err);
          CompleteFrame(bs, b, err, d);
        }
    }
  }

  /** A bio is chained by bio_chain, to the bio given, and by nothing else; and it stays chained. */
  lemma ChainedAsAsked(n: nat, es: seq<Event>, e: Event, d: nat)
    requires d < n
    ensures Ranked(Run(n, es))
    ensures Run(n, es + [e])[d].parent ==
      if e.Chain? && e.b == d && MayChain(Run(n, es), e.b, e.parent) then Some(e.parent) else Run(n, es)[d].parent
    ensures Run(n, es)[d].parent.Some? ==> Run(n, es + [e])[d].parent == Run(n, es)[d].parent
  {
    InvInEveryRun(n, es);
    assert (es + [e])[..|es|] == es;
    var bs := Run(n, es);
    match e
    case Chain(b, p) => if MayChain(bs, b, p) { ChainedFields(bs, b, p, d); }
    case Complete(b, err) =>
      if b < n && !bs[b].completed {
        CompletingRanked(bs, b, err);
        CompleteFrame(bs, b, err, d);
      }
  }

  /** bio_chain takes a bio that is not chained yet, if neither has ended, and it is not below itself. */
  lemma {:induction false} RootBelow(bs: Bios, p: nat, b: nat)
    requires Ranked(bs) && p < |bs| && b < |bs| && bs[b].parent.None?
    ensures RootOf(bs, p) == b <==> Below(bs, p, b)
    decreases bs[p].rank
  {
    assert RankedAt(bs, p);
    if bs[p].parent.Some? {
      RootBelow(bs, bs[p].parent.value, b);
    }
  }

  lemma ChainsWhenever(n: nat, es: seq<Event>, b: nat, p: nat)
    requires b < n && p < n
    ensures var bs := Run(n, es);
      && Ranked(bs)
      && (MayChain(bs, b, p) <==>
            bs[b].parent.None? && !bs[b].completed && !bs[p].ended && !Below(bs, p, b))
  {
    InvInEveryRun(n, es);
    var bs := Run(n, es);
    assert Local(bs, b);
    if bs[b].parent.None? {
      RootBelow(bs, p, b);
    }
  }

  // ---------------------------------------------------------------- the flag and the counter at rest

  predicate HasKid(bs: Bios, b: nat) {
    exists c :: 0 <= c < |bs| && ChildOf(bs, c, b)
  }

  /** BIO_CHAIN is set while a bio that others were chained to has not ended; at the end the counter of such a bio is 0,
      and that of another as it was. */
  predicate Tidy(bs: Bios, b: nat)
    requires b < |bs|
  {
    && (bs[b].chain <==> !bs[b].ended && HasKid(bs, b))
    && (bs[b].ended ==> bs[b].remaining == if HasKid(bs, b) then 0 else 1)
  }

  lemma KidsSame(bs: Bios, bs': Bios, b: nat)
    requires |bs| == |bs'| && forall i :: 0 <= i < |bs| ==> bs'[i].parent == bs[i].parent
    ensures HasKid(bs, b) == HasKid(bs', b)
  {
    if HasKid(bs, b) {
      var c :| 0 <= c < |bs| && ChildOf(bs, c, b);
      assert ChildOf(bs', c, b);
    }
    if HasKid(bs', b) {
      var c :| 0 <= c < |bs| && ChildOf(bs', c, b);
      assert ChildOf(bs, c, b);
    }
  }

  ghost predicate AllTidy(bs: Bios) {
    forall i :: 0 <= i < |bs| ==> Tidy(bs, i)
  }

  lemma DoneTidy(bs: Bios, bs': Bios, d: nat, i: nat)
    requires |bs| == |bs'| && d < |bs| && i < |bs| && Tidy(bs, i) && Counted(bs, d, 1) && !Waits(bs[d])
    requires forall j :: 0 <= j < |bs| ==> bs'[j].parent == bs[j].parent
    requires (bs'[i].chain, bs'[i].remaining, bs'[i].ended) ==
      if i == d then (Done(bs[d]).chain, Done(bs[d]).remaining, true) else (bs[i].chain, bs[i].remaining, bs[i].ended)
    ensures Tidy(bs', i)
  {
    KidsSame(bs, bs', i);
  }

  lemma {:induction false} EndIoTidy(bs: Bios, d: nat)
    requires Inv(bs, d, true) && d < |bs| && Ranked(bs) && AllTidy(bs)
    ensures AllTidy(EndIo(bs, d))
    decreases bs[d].rank
  {
    assert RankedAt(bs, d);
    assert Local(bs, d) && Counted(bs, d, 1);
    DoneFields(bs[d]);
    var r := EndIo(bs, d);
    if Waits(bs[d]) {
      forall i | 0 <= i < |bs| ensures Tidy(r, i) {
        assert Tidy(bs, i);
        KidsSame(bs, r, i);
      }
    } else if bs[d].parent.None? {
      forall i | 0 <= i < |bs| ensures Tidy(r, i) {
        assert Tidy(bs, i);
        DoneTidy(bs, r, d, i);
      }
    } else {
      PassedRanked(bs, d);
      PassKeeps(bs, d);
      var q := Passed(bs, d);
      forall i | 0 <= i < |bs| ensures Tidy(q, i) {
        assert Tidy(bs, i);
        DoneTidy(bs, q, d, i);
      }
      EndIoTidy(q, bs[d].parent.value);
    }
  }

  lemma ChainedTidy(bs: Bios, b: nat, p: nat, i: nat)
    requires MayChain(bs, b, p) && i < |bs| && Tidy(bs, i)
    ensures Tidy(Chained(bs, b, p), i)
  {
    var bs' := Chained(bs, b, p);
    ChainedFields(bs, b, p, i);
    ChainedFields(bs, b, p, b);
    if HasKid(bs, i) {
      var c :| 0 <= c < |bs| && ChildOf(bs, c, i);
      ChainedFields(bs, b, p, c);
      assert ChildOf(bs', c, i);
    }
    if HasKid(bs', i) && i != p {
      var c :| 0 <= c < |bs| && ChildOf(bs', c, i);
      ChainedFields(bs, b, p, c);
      assert ChildOf(bs, c, i);
    }
    if i == p {
      assert ChildOf(bs', b, p);
    }
  }

  /** In every run flag and counter are as they should be, also after the end. */
  lemma {:induction false} TidyInEveryRun(n: nat, es: seq<Event>)
    ensures AllTidy(Run(n, es))
  {
    if es != [] {
      var (front, e) := (es[..|es| - 1], es[|es| - 1]);
      TidyInEveryRun(n, front);
      InvInEveryRun(n, front);
      var bs := Run(n, front);
      match e
      case Chain(b, p) =>
        if MayChain(bs, b, p) {
          forall i | 0 <= i < n ensures Tidy(Chained(bs, b, p), i) {
            assert Tidy(bs, i);
            ChainedTidy(bs, b, p, i);
          }
        }
      case Complete(b, err) =>
        if b < n && !bs[b].completed {
          CompletingRanked(bs, b, err);
          Unowed(bs, 0, b);
          CompletingKeeps(bs, b, err);
          forall i | 0 <= i < n ensures Tidy(Completing(bs, b, err), i) {
            assert Tidy(bs, i);
            KidsSame(bs, Completing(bs, b, err), i);
          }
          EndIoTidy(Completing(bs, b, err), b);
        }
    }
  }

  // ---------------------------------------------------------------- which error

  lemma {:induction false} BelowSame(bs: Bios, bs': Bios, d: nat, b: nat)
    requires Ranked(bs) && Ranked(bs') && |bs| == |bs'| && d < |bs|
    requires forall i :: 0 <= i < |bs| ==> bs'[i].parent == bs[i].parent && bs'[i].rank == bs[i].rank
    ensures Below(bs', d, b) == Below(bs, d, b)
    decreases bs[d].rank
  {
    assert RankedAt(bs, d);
    if bs[d].parent.Some? {
      BelowSame(bs, bs', bs[d].parent.value, b);
    }
  }

  lemma {:induction false} BelowStays(bs: Bios, bs': Bios, d: nat, b: nat)
    requires Ranked(bs) && Ranked(bs') && |bs| == |bs'| && d < |bs| && Below(bs, d, b)
    requires forall i :: 0 <= i < |bs| && bs[i].parent.Some? ==> bs'[i].parent == bs[i].parent
    ensures Below(bs', d, b)
    decreases bs[d].rank
  {
    assert RankedAt(bs, d);
    assert RankedAt(bs', d);
    if d != b {
      BelowStays(bs, bs', bs[d].parent.value, b);
    }
  }

  /** The driver reported this very error for `b` or for a bio below it. */
  predicate From(bs: Bios, es: seq<Event>, b: nat, error: int, d: nat)
    requires Ranked(bs)
  {
    d < |bs| && Below(bs, d, b) && Reported(es, d) == Some(error)
  }

  predicate Explained(bs: Bios, es: seq<Event>, b: nat)
    requires Ranked(bs) && b < |bs|
  {
    bs[b].error != 0 ==> exists d :: 0 <= d < |bs| && From(bs, es, b, bs[b].error, d)
  }

  lemma PassedExplained(bs: Bios, b: nat, es: seq<Event>, i: nat)
    requires Ranked(bs) && b < |bs| && i < |bs| && RankedAt(bs, b) && bs[b].parent.Some? && Ranked(Passed(bs, b))
    requires Explained(bs, es, i) && Explained(bs, es, b)
    ensures Explained(Passed(bs, b), es, i)
  {
    var (bs', p) := (Passed(bs, b), bs[b].parent.value);
    DoneFields(bs[b]);
    if bs'[i].error != 0 {
      var k := if i == p && bs[p].error == 0 then b else i;
      var d :| 0 <= d < |bs| && From(bs, es, k, bs[k].error, d);
      if k != i {
        KidBelow(bs, d, b, p);
      }
      BelowSame(bs, bs', d, i);
      assert From(bs', es, i, bs'[i].error, d);
    }
  }

  lemma {:induction false} EndIoExplained(bs: Bios, b: nat, es: seq<Event>)
    requires Ranked(bs) && b < |bs| && forall i :: 0 <= i < |bs| ==> Explained(bs, es, i)
    ensures Ranked(EndIo(bs, b)) && forall i :: 0 <= i < |bs| ==> Explained(EndIo(bs, b), es, i)
    decreases bs[b].rank
  {
    assert RankedAt(bs, b);
    var r := EndIo(bs, b);
    if Waits(bs[b]) || bs[b].parent.None? {
      DoneFields(bs[b]);
      SameExplained(bs, r, es);
    } else {
      PassedRanked(bs, b);
      forall i | 0 <= i < |bs| ensures Explained(Passed(bs, b), es, i) {
        PassedExplained(bs, b, es, i);
      }
      EndIoExplained(Passed(bs, b), bs[b].parent.value, es);
    }
  }

  lemma SameExplained(bs: Bios, bs': Bios, es: seq<Event>)
    requires Ranked(bs) && |bs| == |bs'| && forall i :: 0 <= i < |bs| ==> Explained(bs, es, i)
    requires forall i :: 0 <= i < |bs| ==> bs'[i].parent == bs[i].parent && bs'[i].rank == bs[i].rank && bs'[i].error == bs[i].error
    ensures Ranked(bs') && forall i :: 0 <= i < |bs| ==> Explained(bs', es, i)
  {
    forall i | 0 <= i < |bs| ensures RankedAt(bs', i) {
      assert RankedAt(bs, i);
    }
    forall i | 0 <= i < |bs| ensures Explained(bs', es, i) {
      assert Explained(bs, es, i);
      if bs[i].error != 0 {
        var d :| 0 <= d < |bs| && From(bs, es, i, bs[i].error, d);
        BelowSame(bs, bs', d, i);
        assert From(bs', es, i, bs'[i].error, d);
      }
    }
  }

  /** A report explains the error of the bio itself, and takes nothing from the others. */
  lemma CompletingExplained(bs: Bios, es: seq<Event>, b: nat, err: int, i: nat)
    requires b < |bs| && i < |bs| && Ranked(bs) && Ranked(Completing(bs, b, err)) && Explained(bs, es, i) && Reported(es, b).None?
    ensures Explained(Completing(bs, b, err), es + [Complete(b, err)], i)
  {
    var (bs', es') := (Completing(bs, b, err), es + [Complete(b, err)]);
    assert es'[..|es|] == es;
    if bs'[i].error != 0 {
      if i == b && err != 0 {
        assert From(bs', es', b, err, b);
      } else {
        var d :| 0 <= d < |bs| && From(bs, es, i, bs[i].error, d);
        BelowSame(bs, bs', d, i);
        assert From(bs', es', i, bs'[i].error, d);
      }
    }
  }

  lemma ChainedExplained(bs: Bios, es: seq<Event>, b: nat, p: nat, i: nat)
    requires MayChain(bs, b, p) && Ranked(Chained(bs, b, p)) && i < |bs| && Explained(bs, es, i)
    ensures Explained(Chained(bs, b, p), es + [Chain(b, p)], i)
  {
    var (bs', es') := (Chained(bs, b, p), es + [Chain(b, p)]);
    assert es'[..|es|] == es;
    ChainedFields(bs, b, p, i);
    if bs[i].error != 0 {
      var d :| 0 <= d < |bs| && From(bs, es, i, bs[i].error, d);
      forall c | 0 <= c < |bs| && bs[c].parent.Some? ensures bs'[c].parent == bs[c].parent {
        ChainedFields(bs, b, p, c);
      }
      BelowStays(bs, bs', d, i);
      assert From(bs', es', i, bs'[i].error, d);
    }
  }

  lemma SkippedExplained(bs: Bios, es: seq<Event>, e: Event, i: nat)
    requires Ranked(bs) && i < |bs| && Explained(bs, es, i)
    ensures Explained(bs, es + [e], i)
  {
    assert (es + [e])[..|es|] == es;
    if bs[i].error != 0 {
      var d :| 0 <= d < |bs| && From(bs, es, i, bs[i].error, d);
      assert From(bs, es + [e], i, bs[i].error, d);
    }
  }

  lemma ApplyExplained(n: nat, es: seq<Event>, e: Event, bs: Bios)
    requires bs == Run(n, es) && Ranked(bs) && Ranked(Apply(bs, e)) && forall i :: 0 <= i < n ==> Explained(bs, es, i)
    ensures forall i :: 0 <= i < n ==> Explained(Apply(bs, e), es + [e], i)
  {
    if e.Chain? && MayChain(bs, e.b, e.parent) {
      forall i | 0 <= i < n ensures Explained(Apply(bs, e), es + [e], i) {
        ChainedExplained(bs, es, e.b, e.parent, i);
      }
    } else if e.Complete? && e.b < n && !bs[e.b].completed {
      CompletingRanked(bs, e.b, e.err);
      CompletedAsReported(n, es, e.b);
      forall i | 0 <= i < n ensures Explained(Completing(bs, e.b, e.err), es + [e], i) {
        CompletingExplained(bs, es, e.b, e.err, i);
      }
      EndIoExplained(Completing(bs, e.b, e.err), e.b, es + [e]);
    } else {
      forall i | 0 <= i < n ensures Explained(bs, es + [e], i) {
        SkippedExplained(bs, es, e, i);
      }
    }
  }

  /** In every run the error a bio shows is one the driver reported for it or for a bio below it. */
  lemma {:induction false} ErrorsAreReported(n: nat, es: seq<Event>, b: nat)
    requires b < n
    ensures Ranked(Run(n, es)) && forall i :: 0 <= i < n ==> Explained(Run(n, es), es, i)
    ensures var bs := Run(n, es); bs[b].error != 0 ==> exists d :: 0 <= d < n && Below(bs, d, b) && Reported(es, d) == Some(bs[b].error)
  {
    InvInEveryRun(n, es);
    if es != [] {
      var (front, e) := (es[..|es| - 1], es[|es| - 1]);
      ErrorsAreReported(n, front, b);
      assert front + [e] == es;
      ApplyExplained(n, front, e, Run(n, front));
    }
    var bs := Run(n, es);
    assert Explained(bs, es, b);
    if bs[b].error != 0 {
      var d :| 0 <= d < n && From(bs, es, b, bs[b].error, d);
      assert Below(bs, d, b);
    }
  }

  /** The first error sticks: only a report of the driver for the bio itself replaces it. */
  lemma FirstErrorSticks(n: nat, es: seq<Event>, e: Event, b: nat)
    requires b < n && Run(n, es)[b].error != 0
    ensures e.Complete? && e.b == b && e.err != 0 && Reported(es, b).None? ==> Run(n, es + [e])[b].error == e.err
    ensures !(e.Complete? && e.b == b && e.err != 0 && Reported(es, b).None?) ==> Run(n, es + [e])[b].error == Run(n, es)[b].error
  {
    InvInEveryRun(n, es);
    assert (es + [e])[..|es|] == es;
    var bs := Run(n, es);
    CompletedAsReported(n, es, b);
    match e
    case Chain(c, p) => if MayChain(bs, c, p) { ChainedFields(bs, c, p, b); }
    case Complete(c, err) =>
      if c < n && !bs[c].completed {
        CompletingRanked(bs, c, err);
        CompleteFrame(bs, c, err, b);
      }
  }

  // ---------------------------------------------------------------- the code

  class BioSet {
    var bios: Bios

    ghost predicate Valid()
      reads this
    {
      Inv(bios, 0, false) && Ranked(bios)
    }

    constructor (n: nat)
      ensures Valid() && bios == Run(n, [])
    {
      bios := seq(n, _ => Fresh());
      new;
      InvInEveryRun(n, []);
    }

    /** bio_chain. */
    method ChainBio(b: nat, parent: nat)
      requires Valid() && MayChain(bios, b, parent)
      modifies this
      ensures Valid() && bios == Chained(old(bios), b, parent)
    {
      ChainedKeeps(bios, b, parent, 0);
      bios := Lowered(bios, b, bios[parent].rank);
      bios := bios[b := bios[b].(parent := Some(parent))];
      IncRemaining(parent);
      InvRanked(bios, 0, false);
    }

    /** bio_inc_remaining. */
    method IncRemaining(b: nat)
      requires b < |bios|
      modifies this
      ensures bios == old(bios)[b := old(bios)[b].(chain := true, remaining := old(bios)[b].remaining + 1)]
    {
      bios := bios[b := bios[b].(chain := true)];
      bios := bios[b := bios[b].(remaining := bios[b].remaining + 1)];
    }

    /** The driver completes a bio: it sets bi_error on failure and calls bio_endio. */
    method CompleteBio(b: nat, err: int)
      requires Valid() && b < |bios| && !bios[b].completed
      modifies this
      ensures Valid() && bios == Apply(old(bios), Complete(b, err))
    {
      ApplyKeeps(bios, Complete(b, err));
      Unowed(bios, 0, b);
      CompletingKeeps(bios, b, err);
      InvRanked(Completing(bios, b, err), b, true);
      bios := Completing(bios, b, err);
      Endio(b);
      InvRanked(bios, 0, false);
    }

    /** bio_endio. */
    method Endio(b: nat)
      requires b < |bios| && Ranked(bios) && Inv(bios, b, true)
      modifies this
      ensures bios == EndIo(old(bios), b)
    {
      var bio: nat := b;
      while true
        invariant bio < |bios| && Ranked(bios) && Inv(bios, bio, true)
        invariant EndIo(bios, bio) == EndIo(old(bios), b)
        decreases bios[bio].rank
      {
        assert RankedAt(bios, bio);
        assert Local(bios, bio) && Counted(bios, bio, 1);
        var x := bios[bio];
        if x.chain {
          assert x.remaining > 0; // BUG_ON
          if x.remaining - 1 != 0 {
            bios := bios[bio := x.(remaining := x.remaining - 1)];
            return;
          }
        }
        if x.parent.None? {
          bios := bios[bio := Done(x).(fired := x.fired + 1)];
          return;
        }
        PassKeeps(bios, bio);
        PassedRanked(bios, bio);
        var p := x.parent.value;
        bios := bios[bio := Done(x)];
        bios := bios[p := Inherit(bios[p], x.error)];
        bio := p;
      }
    }
  }
}
