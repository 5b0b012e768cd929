/** Requests as carriers of bios: merging (block/blk-merge.c, block/blk-core.c) and partial completion
    (blk_update_request in block/blk-core.c).
 */
module Requests {
  import opened Common
  import opened Segments

  /** A data bio: some vectors, each a positive number of whole sectors. */
  predicate Whole(vecs: Seg) {
    vecs != [] && WholeSectors(vecs)
  }

  predicate WholeSectors(vecs: Seg) {
    forall i :: 0 <= i < |vecs| ==> vecs[i].len > 0 && Aligned(vecs[i].len)
  }

  /** Bytes to sectors, and whole sectors. */
  function Sectors(n: nat): nat {
    n / 512
  }

  predicate Aligned(n: nat) {
    n % 512 == 0
  }

  function BioBytes(b: Bio): nat {
    Size(b.vecs)
  }

  lemma {:induction false} SizeWhole(vecs: Seg)
    requires WholeSectors(vecs)
    ensures Aligned(Size(vecs)) && (vecs != [] ==> Size(vecs) > 0)
  {
    if vecs != [] {
      SizeWhole(Front(vecs));
    }
  }

  lemma {:induction false} SizeFirst(vecs: Seg)
    requires vecs != []
    ensures Size(vecs) == vecs[0].len + Size(vecs[1..])
  {
    assert vecs == [vecs[0]] + vecs[1..];
    SizeConcat([vecs[0]], vecs[1..]);
    assert Size([vecs[0]]) == vecs[0].len by { assert Front([vecs[0]]) == []; }
  }

  lemma {:induction false} VecsCons(b: Bio, bios: seq<Bio>)
    ensures Vecs([b] + bios) == b.vecs + Vecs(bios)
  {
    VecsConcat([b], bios);
    assert Vecs([b]) == b.vecs by { assert Front([b]) == []; }
  }

  lemma {:induction false} VecsFirst(bios: seq<Bio>)
    requires bios != []
    ensures Vecs(bios) == bios[0].vecs + Vecs(bios[1..])
  {
    assert bios == [bios[0]] + bios[1..];
    VecsCons(bios[0], bios[1..]);
  }

  /** The fields of struct request this file follows; `noMerge` is REQ_NOMERGE. */
  datatype Rq = Rq(bios: seq<Bio>, sector: nat, dataLen: nat, nr: nat, noMerge: bool)

  /** The sector after a bio. */
  function BioEnd(b: Bio): nat {
    b.sector + Sectors(BioBytes(b))
  }

  /** Bio `i` starts where the previous one ends. */
  predicate Follows(bios: seq<Bio>, i: nat)
    requires i < |bios|
  {
    i > 0 ==> bios[i].sector == BioEnd(bios[i - 1])
  }

  predicate Contiguous(bios: seq<Bio>) {
    && (forall i :: 0 <= i < |bios| ==> Whole(bios[i].vecs))
    && (forall i :: 0 <= i < |bios| ==> Follows(bios, i))
  }

  /** A filesystem request describes exactly its bios. */
  predicate Accounted(r: Rq) {
    && Contiguous(r.bios)
    && r.dataLen == Size(Vecs(r.bios))
    && (r.bios != [] ==> r.sector == r.bios[0].sector)
  }

  /** `nr` segments are enough for `vecs`, and if they may still be merged the cached sizes at the two ends
      bound the outer segments. */
  ghost predicate Suffice(q: Limits, vecs: Seg, nr: nat, front: nat, back: nat, noMerge: bool) {
    if noMerge then |Greedy(q, vecs)| <= nr else Counted(q, vecs, nr, front, back)
  }

  lemma SufficeBounds(q: Limits, vecs: Seg, nr: nat, front: nat, back: nat, noMerge: bool)
    requires Suffice(q, vecs, nr, front, back, noMerge)
    ensures |Greedy(q, vecs)| <= nr
  {
    if !noMerge {
      CountedBounds(q, vecs, nr, front, back);
    }
  }

  /** nr_phys_segments and the cached sizes at the two ends of the bio list. */
  ghost predicate SegmentsBounded(q: Limits, r: Rq) {
    r.bios != [] ==> Suffice(q, Vecs(r.bios), r.nr, r.bios[0].segFront, Last(r.bios).segBack, r.noMerge)
  }

  datatype Health = Sound | Unsound

  /** Both together, as a value: the verifier then passes the invariant of a request on as one fact instead
      of taking it apart at every call. */
  ghost function HealthOf(q: Limits, r: Rq): Health {
    if Accounted(r) && SegmentsBounded(q, r) then Sound else Unsound
  }

  ghost predicate RqInv(q: Limits, r: Rq) {
    HealthOf(q, r) == Sound
  }

  /** A bio whose cached segment facts, when flagged valid, can be relied on: the count always, the sizes
      unless it is not to be merged. */
  ghost predicate BioInv(q: Limits, b: Bio) {
    Whole(b.vecs) && (b.segValid ==> Suffice(q, b.vecs, b.physSegments, b.segFront, b.segBack, b.noMerge))
  }

  function Ids(bios: seq<Bio>): (ids: seq<nat>)
    ensures |ids| == |bios|
  {
    if bios == [] then [] else Ids(Front(bios)) + [Last(bios).id]
  }

  lemma {:induction false} IdsConcat(a: seq<Bio>, b: seq<Bio>)
    ensures Ids(a + b) == Ids(a) + Ids(b)
  {
    if b == [] {
      assert a + b == a;
    } else {
      assert Front(a + b) == a + Front(b);
      IdsConcat(a, Front(b));
    }
  }

  // ---------------------------------------------------------------- recounting one bio

  function Recounted(q: Limits, b: Bio): (r: Bio) {
    var g := Greedy(q, b.vecs);
    b.(physSegments := |g|,
       segFront := Max(b.segFront, if g == [] then 0 else Size(g[0])),
       segBack := Max(b.segBack, if g == [] then 0 else Size(Last(g))),
       segValid := true)
  }

  lemma RecountedInv(q: Limits, b: Bio)
    requires Whole(b.vecs)
    ensures BioInv(q, Recounted(q, b))
  {
    GreedyCuts(q, b.vecs);
    CountedGreedy(q, b.vecs, Recounted(q, b).segFront, Recounted(q, b).segBack);
  }

  /** blk_recount_segments. */
  method RecountSegments(q: Limits, b: Bio) returns (r: Bio)
    ensures r == Recounted(q, b)
  {
    var nr, front, back := RecalcSegments(q, [b]);
    assert Vecs([b]) == b.vecs by { assert Front([b]) == []; }
    r := b.(physSegments := nr, segFront := front, segBack := back, segValid := true);
  }

  /** Bios that differ at most in cached segment facts, which were only raised. */
  predicate Refreshed(b: Bio, r: Bio) {
    && r.id == b.id && r.sector == b.sector && r.vecs == b.vecs && r.noMerge == b.noMerge
    && r.segFront >= b.segFront && r.segBack >= b.segBack
  }

  /** The same bios in the same places, whatever their cached segment facts. */
  predicate SameBios(a: seq<Bio>, b: seq<Bio>) {
    |a| == |b| &&
    (a != [] ==>
      && Last(a).id == Last(b).id && Last(a).sector == Last(b).sector && Last(a).vecs == Last(b).vecs
      && SameBios(Front(a), Front(b)))
  }

  lemma {:induction false} SameBiosRefl(a: seq<Bio>)
    ensures SameBios(a, a)
  {
    if a != [] {
      SameBiosRefl(Front(a));
    }
  }

  lemma {:induction false} SameBiosTrans(a: seq<Bio>, b: seq<Bio>, c: seq<Bio>)
    requires SameBios(a, b) && SameBios(b, c)
    ensures SameBios(a, c)
  {
    if a != [] {
      SameBiosTrans(Front(a), Front(b), Front(c));
    }
  }

  lemma {:induction false} SameBiosUpdate(a: seq<Bio>, i: nat, c: Bio)
    requires i < |a| && c.id == a[i].id && c.sector == a[i].sector && c.vecs == a[i].vecs
    ensures SameBios(a, a[i := c])
  {
    if i == |a| - 1 {
      assert Front(a[i := c]) == Front(a);
      SameBiosRefl(Front(a));
    } else {
      assert Front(a[i := c]) == Front(a)[i := c];
      SameBiosUpdate(Front(a), i, c);
    }
  }

  lemma {:induction false} SameBiosAt(a: seq<Bio>, b: seq<Bio>, i: nat)
    requires SameBios(a, b) && i < |a|
    ensures a[i].id == b[i].id && a[i].sector == b[i].sector && a[i].vecs == b[i].vecs
  {
    if i < |a| - 1 {
      SameBiosAt(Front(a), Front(b), i);
    }
  }

  lemma {:induction false} SameBiosFacts(a: seq<Bio>, b: seq<Bio>)
    requires SameBios(a, b)
    ensures Vecs(a) == Vecs(b) && Ids(a) == Ids(b)
  {
    if a != [] {
      SameBiosFacts(Front(a), Front(b));
    }
  }

  lemma SameBiosContiguous(a: seq<Bio>, b: seq<Bio>)
    requires SameBios(a, b) && Contiguous(a)
    ensures Contiguous(b)
  {
    forall i | 0 <= i < |b| ensures Whole(b[i].vecs) && Follows(b, i) {
      SameBiosAt(a, b, i);
      assert Follows(a, i);
      if i > 0 {
        SameBiosAt(a, b, i - 1);
      }
    }
  }

  lemma SameAccounts(a: Rq, b: Rq)
    requires Accounted(a) && a.sector == b.sector && a.dataLen == b.dataLen && SameBios(a.bios, b.bios)
    ensures Accounted(b) && Vecs(a.bios) == Vecs(b.bios) && Ids(a.bios) == Ids(b.bios)
  {
    SameBiosFacts(a.bios, b.bios);
    SameBiosContiguous(a.bios, b.bios);
    if a.bios != [] {
      SameBiosAt(a.bios, b.bios, 0);
    }
  }

  /** Raising cached sizes keeps the invariant. */
  lemma RefreshKeeps(q: Limits, r: Rq, bios: seq<Bio>)
    requires RqInv(q, r) && SameBios(r.bios, bios)
    requires bios != [] ==> r.bios[0].segFront <= bios[0].segFront && Last(r.bios).segBack <= Last(bios).segBack
    ensures RqInv(q, r.(bios := bios))
  {
    SameAccounts(r, r.(bios := bios));
    if bios != [] && !r.noMerge {
      CountedWider(q, Vecs(bios), r.nr, r.bios[0].segFront, Last(r.bios).segBack, bios[0].segFront, Last(bios).segBack);
    }
  }

  // ---------------------------------------------------------------- merging, on values

  /** Two bio lists put one after the other, as a request that starts where the first does. */
  function Merged(a: Rq, b: Rq, nr: nat): (m: Rq) {
    Rq(a.bios + b.bios, a.sector, a.dataLen + b.dataLen, nr, a.noMerge)
  }

  /** A bio seen as a request of its own. */
  function Alone(b: Bio): (r: Rq) {
    Rq([b], b.sector, BioBytes(b), b.physSegments, b.noMerge)
  }

  lemma VecsOne(b: Bio)
    ensures Vecs([b]) == b.vecs && Ids([b]) == [b.id]
  {
    assert Front([b]) == [];
  }

  lemma AloneAccounted(b: Bio)
    requires Whole(b.vecs)
    ensures Accounted(Alone(b))
  {
    VecsOne(b);
  }

  lemma AloneInv(q: Limits, b: Bio)
    requires BioInv(q, b) && b.segValid
    ensures RqInv(q, Alone(b))
  {
    AloneAccounted(b);
    VecsOne(b);
    assert SegmentsBounded(q, Alone(b));
  }

  lemma FrontContiguous(bios: seq<Bio>)
    requires Contiguous(bios) && bios != []
    ensures Contiguous(Front(bios))
  {
    forall i | 0 <= i < |Front(bios)| ensures Follows(Front(bios), i) {
      assert Follows(bios, i);
    }
  }

  /** The last bio ends where the request does. */
  lemma {:induction false} EndSector(bios: seq<Bio>)
    requires Contiguous(bios) && bios != []
    ensures BioEnd(Last(bios)) == bios[0].sector + Sectors(Size(Vecs(bios)))
    ensures Aligned(Size(Vecs(bios)))
  {
    SizeWhole(Last(bios).vecs);
    SizeConcat(Vecs(Front(bios)), Last(bios).vecs);
    if |bios| > 1 {
      FrontContiguous(bios);
      EndSector(Front(bios));
      assert Follows(bios, |bios| - 1);
    }
  }

  lemma ContiguousConcat(a: seq<Bio>, b: seq<Bio>)
    requires Contiguous(a) && Contiguous(b) && a != [] && (b != [] ==> b[0].sector == BioEnd(Last(a)))
    ensures Contiguous(a + b)
  {
    var c := a + b;
    forall i | 0 <= i < |c| ensures Follows(c, i) {
      if i < |a| {
        assert Follows(a, i);
      } else {
        assert Follows(b, i - |a|);
      }
    }
  }

  /** Sector and length accounting of any merge at the end of `a`. */
  lemma MergeAccounts(a: Rq, b: Rq, nr: nat)
    requires Accounted(a) && Accounted(b) && a.bios != [] && b.bios != []
    requires b.sector == a.sector + Sectors(a.dataLen)
    ensures Accounted(Merged(a, b, nr))
  {
    VecsConcat(a.bios, b.bios);
    SizeConcat(Vecs(a.bios), Vecs(b.bios));
    EndSector(a.bios);
    ContiguousConcat(a.bios, b.bios);
  }

  /** A merge that starts a new segment. */
  lemma MergeBounds(q: Limits, a: Rq, b: Rq)
    requires SegmentsBounded(q, a) && SegmentsBounded(q, b) && a.bios != [] && b.bios != [] && !a.noMerge && !b.noMerge
    ensures SegmentsBounded(q, Merged(a, b, a.nr + b.nr))
  {
    VecsConcat(a.bios, b.bios);
    CountedConcat(q, Vecs(a.bios), a.nr, a.bios[0].segFront, Last(a.bios).segBack,
                  Vecs(b.bios), b.nr, b.bios[0].segFront, Last(b.bios).segBack);
  }

  // ll_merge_requests_fn

  /** blk_phys_contig_segment on the two inner ends. */
  predicate ContigSegment(q: Limits, a: Bio, b: Bio)
    requires a.vecs != [] && b.vecs != []
  {
    a.segBack + b.segFront <= q.maxSegmentSize && Join(q, Last(a.vecs), b.vecs[0])
  }

  /** ll_merge_requests_fn raises cached sizes before it knows whether the merge fits: the front size of
      a one-segment request, and the back size of a one-segment successor. */
  function FrontRaised(a: Rq, size: nat): (r: Rq)
    requires a.bios != []
  {
    if a.nr != 1 then a else a.(bios := a.bios[0 := a.bios[0].(segFront := size)])
  }

  function BackRaised(b: Rq, size: nat): (r: Rq)
    requires b.bios != []
  {
    if b.nr != 1 then b else b.(bios := b.bios[|b.bios| - 1 := Last(b.bios).(segBack := size)])
  }

  /** With one segment, its size is within both cached bounds. */
  lemma CountedOne(q: Limits, bvs: Seg, front: nat, back: nat, front': nat, back': nat)
    requires Counted(q, bvs, 1, front, back)
    requires (front <= front' || back <= front') && (front <= back' || back <= back')
    ensures Counted(q, bvs, 1, front', back')
  {
    var v :| CountedBy(q, v, bvs, 1, front, back);
    assert CountedBy(q, v, bvs, 1, front', back');
  }

  lemma RaisedSame(a: Rq, b: Rq, size: nat)
    requires a.bios != [] && b.bios != []
    ensures SameBios(a.bios, FrontRaised(a, size).bios) && SameBios(b.bios, BackRaised(b, size).bios)
  {
    SameBiosRefl(a.bios);
    SameBiosRefl(b.bios);
    SameBiosUpdate(a.bios, 0, a.bios[0].(segFront := size));
    SameBiosUpdate(b.bios, |b.bios| - 1, Last(b.bios).(segBack := size));
  }

  /** Even when the merge is then refused, the raised sizes are sound. */
  lemma FrontRaisedKeeps(q: Limits, a: Rq, size: nat)
    requires RqInv(q, a) && a.bios != [] && !a.noMerge && Last(a.bios).segBack <= size
    ensures RqInv(q, FrontRaised(a, size))
  {
    RaisedSame(a, a, size);
    SameAccounts(a, FrontRaised(a, size));
    if a.nr == 1 {
      CountedOne(q, Vecs(a.bios), a.bios[0].segFront, Last(a.bios).segBack, size, Last(a.bios).segBack);
    }
  }

  lemma BackRaisedKeeps(q: Limits, b: Rq, size: nat)
    requires RqInv(q, b) && b.bios != [] && !b.noMerge && b.bios[0].segFront <= size
    ensures RqInv(q, BackRaised(b, size))
  {
    RaisedSame(b, b, size);
    SameAccounts(b, BackRaised(b, size));
    if b.nr == 1 {
      CountedOne(q, Vecs(b.bios), b.bios[0].segFront, Last(b.bios).segBack, b.bios[0].segFront, size);
    }
  }

  lemma {:induction false} EndsOfVecs(bios: seq<Bio>)
    requires bios != [] && bios[0].vecs != [] && Last(bios).vecs != []
    ensures Vecs(bios) != [] && Vecs(bios)[0] == bios[0].vecs[0] && Last(Vecs(bios)) == Last(Last(bios).vecs)
  {
    VecsFirst(bios);
  }

  lemma RequestMergeBounds(q: Limits, a: Rq, b: Rq, size: nat)
    requires RqInv(q, a) && RqInv(q, b) && a.bios != [] && b.bios != [] && !a.noMerge && !b.noMerge
    requires ContigSegment(q, Last(a.bios), b.bios[0]) && size == Last(a.bios).segBack + b.bios[0].segFront
    ensures a.nr + b.nr >= 1
    ensures Counted(q, Vecs(a.bios) + Vecs(b.bios), a.nr + b.nr - 1,
                    if a.nr == 1 then size else a.bios[0].segFront, if b.nr == 1 then size else Last(b.bios).segBack)
  {
    EndsOfVecs(a.bios);
    EndsOfVecs(b.bios);
    CountedJoin(q, Vecs(a.bios), a.nr, a.bios[0].segFront, Last(a.bios).segBack,
                Vecs(b.bios), b.nr, b.bios[0].segFront, Last(b.bios).segBack);
  }

  function JoinMerged(a: Rq, b: Rq, size: nat): (m: Rq)
    requires a.bios != [] && b.bios != [] && a.nr + b.nr > 0
  {
    Merged(FrontRaised(a, size), BackRaised(b, size), a.nr + b.nr - 1)
  }

  /** attempt_merge when the inner ends share a segment. */
  lemma JoinMergeKeeps(q: Limits, a: Rq, b: Rq, size: nat)
    requires RqInv(q, a) && RqInv(q, b) && a.bios != [] && b.bios != [] && a.nr + b.nr > 0 && !a.noMerge && !b.noMerge
    requires ContigSegment(q, Last(a.bios), b.bios[0]) && size == Last(a.bios).segBack + b.bios[0].segFront
    requires b.sector == a.sector + Sectors(a.dataLen)
    ensures RqInv(q, JoinMerged(a, b, size))
  {
    var (a', b') := (FrontRaised(a, size), BackRaised(b, size));
    RaisedSame(a, b, size);
    SameAccounts(a, a');
    SameAccounts(b, b');
    MergeAccounts(a', b', a.nr + b.nr - 1);
    JoinMergeBounds(q, a, b, size, a', b');
  }

  lemma JoinMergeBounds(q: Limits, a: Rq, b: Rq, size: nat, a': Rq, b': Rq)
    requires RqInv(q, a) && RqInv(q, b) && a.bios != [] && b.bios != [] && a.nr + b.nr > 0 && !a.noMerge && !b.noMerge
    requires ContigSegment(q, Last(a.bios), b.bios[0]) && size == Last(a.bios).segBack + b.bios[0].segFront
    requires a' == FrontRaised(a, size) && Vecs(a'.bios) == Vecs(a.bios)
    requires b' == BackRaised(b, size) && Vecs(b'.bios) == Vecs(b.bios)
    ensures SegmentsBounded(q, Merged(a', b', a.nr + b.nr - 1))
  {
    RequestMergeBounds(q, a, b, size);
    VecsConcat(a'.bios, b'.bios);
  }

  // ---------------------------------------------------------------- partial completion

  /** bio_advance: the vectors after the first `n` bytes. */
  function DropBytes(vs: Seg, n: nat): (r: Seg)
    decreases |vs|
  {
    if n == 0 || vs == [] then vs
    else if n < vs[0].len then [Bvec(vs[0].page, vs[0].offset + n, vs[0].len - n)] + vs[1..]
    else DropBytes(vs[1..], n - vs[0].len)
  }

  lemma {:induction false} DropSize(vs: Seg, n: nat)
    requires n <= Size(vs)
    ensures Size(DropBytes(vs, n)) == Size(vs) - n
  {
    if n != 0 && vs != [] {
      SizeFirst(vs);
      if n < vs[0].len {
        SizeFirst(DropBytes(vs, n));
      } else {
        DropSize(vs[1..], n - vs[0].len);
      }
    }
  }

  /** Vectors are not empty. */
  predicate Positive(vs: Seg) {
    forall i :: 0 <= i < |vs| ==> vs[i].len > 0
  }

  lemma {:induction false} DropAll(vs: Seg)
    requires Positive(vs)
    ensures DropBytes(vs, Size(vs)) == []
  {
    if vs != [] {
      SizeFirst(vs);
      DropAll(vs[1..]);
    }
  }

  /** Bytes are taken from the first list before the second. */
  lemma {:induction false} DropConcat(a: Seg, b: Seg, n: nat)
    requires Positive(a)
    ensures DropBytes(a + b, n) == if n < Size(a) then DropBytes(a, n) + b else DropBytes(b, n - Size(a))
  {
    if a == [] {
      assert a + b == b;
    } else {
      SizeFirst(a);
      if n >= a[0].len {
        DropConcat(a[1..], b, n - a[0].len);
        DropPastFirst(a, b, n);
      } else if n > 0 {
        DropInside(a, b, n);
      }
    }
  }

  lemma {:induction false} DropPastFirst(a: Seg, b: Seg, n: nat)
    requires a != [] && n >= a[0].len > 0
    ensures DropBytes(a + b, n) == DropBytes(a[1..] + b, n - a[0].len)
    ensures DropBytes(a, n) == DropBytes(a[1..], n - a[0].len)
  {
    var c := a + b;
    assert c[0] == a[0] && c[1..] == a[1..] + b;
  }

  lemma {:induction false} DropInside(a: Seg, b: Seg, n: nat)
    requires a != [] && 0 < n < a[0].len
    ensures DropBytes(a + b, n) == DropBytes(a, n) + b
  {
    var c := a + b;
    assert c[0] == a[0] && c[1..] == a[1..] + b;
    var t := [Bvec(a[0].page, a[0].offset + n, a[0].len - n)];
    assert t + (a[1..] + b) == (t + a[1..]) + b;
  }

  lemma {:induction false} DropWhole(vs: Seg, n: nat)
    requires WholeSectors(vs) && Aligned(n)
    ensures WholeSectors(DropBytes(vs, n))
  {
    if n != 0 && vs != [] && n >= vs[0].len {
      DropWhole(vs[1..], n - vs[0].len);
    }
  }

  function Advanced(b: Bio, n: nat): (r: Bio) {
    b.(sector := b.sector + Sectors(n), vecs := DropBytes(b.vecs, n))
  }

  /** What completing `n` bytes leaves: the bios ended, in order, and the bios left. */
  datatype Progress = Progress(ended: seq<nat>, left: seq<Bio>)

  /** The loop of blk_update_request. */
  function Consume(bios: seq<Bio>, n: nat): (p: Progress)
    decreases |bios|
  {
    if bios == [] then Progress([], [])
    else if n < BioBytes(bios[0]) then Progress([], [Advanced(bios[0], n)] + bios[1..])
    else if n == BioBytes(bios[0]) then Progress([bios[0].id], bios[1..])
    else
      var p := Consume(bios[1..], n - BioBytes(bios[0]));
      Progress([bios[0].id] + p.ended, p.left)
  }

  lemma {:induction false} ConsumeNothing(bios: seq<Bio>)
    requires Contiguous(bios)
    ensures Consume(bios, 0) == Progress([], bios)
  {
    if bios != [] {
      SizeWhole(bios[0].vecs);
      assert Advanced(bios[0], 0) == bios[0];
    }
  }

  lemma TailContiguous(bios: seq<Bio>)
    requires Contiguous(bios) && bios != []
    ensures Contiguous(bios[1..]) && Whole(bios[0].vecs) && (|bios| > 1 ==> bios[1].sector == BioEnd(bios[0]))
  {
    forall i | 0 <= i < |bios[1..]| ensures Follows(bios[1..], i) {
      assert Follows(bios, i + 1);
    }
    assert |bios| > 1 ==> Follows(bios, 1);
  }

  /** Completion drops exactly the first bytes, whatever the bio boundaries. */
  lemma {:induction false} ConsumeDrops(bios: seq<Bio>, n: nat)
    requires Contiguous(bios)
    ensures Vecs(Consume(bios, n).left) == DropBytes(Vecs(bios), n)
  {
    if bios != [] {
      TailContiguous(bios);
      VecsFirst(bios);
      DropFromFirst(bios[0], Vecs(bios[1..]), n);
      if n < BioBytes(bios[0]) {
        VecsCons(Advanced(bios[0], n), bios[1..]);
      } else if n > BioBytes(bios[0]) {
        ConsumeDrops(bios[1..], n - BioBytes(bios[0]));
      }
    }
  }

  lemma DropFromFirst(b: Bio, rest: Seg, n: nat)
    requires Whole(b.vecs)
    ensures n < BioBytes(b) ==> DropBytes(b.vecs + rest, n) == Advanced(b, n).vecs + rest
    ensures n >= BioBytes(b) ==> DropBytes(b.vecs + rest, n) == DropBytes(rest, n - BioBytes(b))
    ensures DropBytes(rest, 0) == rest
  {
    DropConcat(b.vecs, rest, n);
  }

  /** The bytes of the first `k` bios. */
  function Prefix(bios: seq<Bio>, k: nat): nat
    requires k <= |bios|
  {
    if k == 0 then 0 else BioBytes(bios[0]) + Prefix(bios[1..], k - 1)
  }

  /** A bio is ended exactly when its last byte is among those completed; bios end in list order. */
  lemma {:induction false} ConsumeEnds(bios: seq<Bio>, n: nat, k: nat)
    requires Contiguous(bios) && k < |bios|
    ensures |Consume(bios, n).ended| <= |bios|
    ensures k < |Consume(bios, n).ended| <==> Prefix(bios, k + 1) <= n
    ensures k < |Consume(bios, n).ended| ==> Consume(bios, n).ended[k] == bios[k].id
  {
    var b := bios[0];
    SizeWhole(b.vecs);
    TailContiguous(bios);
    if k > 0 {
      ConsumeEnds(bios[1..], if n >= BioBytes(b) then n - BioBytes(b) else 0, k - 1);
      PrefixPositive(bios[1..], k);
    } else if |bios| > 1 {
      ConsumeEnds(bios[1..], if n >= BioBytes(b) then n - BioBytes(b) else 0, 0);
    } else {
      assert bios[1..] == [];
    }
  }

  lemma {:induction false} PrefixPositive(bios: seq<Bio>, k: nat)
    requires Contiguous(bios) && 0 < k <= |bios|
    ensures Prefix(bios, k) > 0
  {
    SizeWhole(bios[0].vecs);
  }

  lemma AdvancedContiguous(bios: seq<Bio>, n: nat)
    requires Contiguous(bios) && bios != [] && n < BioBytes(bios[0]) && Aligned(n)
    ensures Contiguous([Advanced(bios[0], n)] + bios[1..])
  {
    var b := Advanced(bios[0], n);
    DropSize(bios[0].vecs, n);
    DropWhole(bios[0].vecs, n);
    SizeWhole(bios[0].vecs);
    assert BioEnd(b) == BioEnd(bios[0]);
    TailContiguous(bios);
    if |bios| > 1 {
      ContiguousConcat([b], bios[1..]);
    } else {
      assert [b] + bios[1..] == [b];
    }
  }

  /** What is left is again a run of bios, starting `n` bytes further on. */
  lemma {:induction false} ConsumeContiguous(bios: seq<Bio>, n: nat)
    requires Contiguous(bios) && Aligned(n)
    ensures Contiguous(Consume(bios, n).left)
    ensures Consume(bios, n).left != [] ==> Consume(bios, n).left[0].sector == bios[0].sector + Sectors(n)
  {
    if bios != [] {
      SizeWhole(bios[0].vecs);
      TailContiguous(bios);
      if n < BioBytes(bios[0]) {
        AdvancedContiguous(bios, n);
      } else if n > BioBytes(bios[0]) {
        ConsumeContiguous(bios[1..], n - BioBytes(bios[0]));
      }
    }
  }

  lemma {:induction false} AdvancedTwice(b: Bio, m: nat, n: nat)
    requires Whole(b.vecs) && m + n < BioBytes(b) && Aligned(m) && Aligned(n)
    ensures Advanced(Advanced(b, m), n) == Advanced(b, m + n)
  {
    DropDrop(b.vecs, m, n);
  }

  lemma {:induction false} DropDrop(vs: Seg, m: nat, n: nat)
    requires Positive(vs)
    ensures DropBytes(DropBytes(vs, m), n) == DropBytes(vs, m + n)
  {
    if vs != [] && m > 0 {
      if m >= vs[0].len {
        DropDrop(vs[1..], m - vs[0].len, n);
      } else {
        var t := [Bvec(vs[0].page, vs[0].offset + m, vs[0].len - m)];
        assert (t + vs[1..])[1..] == vs[1..];
      }
    }
  }

  lemma ConsumeWithinFirst(bios: seq<Bio>, m: nat, n: nat)
    requires Contiguous(bios) && bios != [] && m < BioBytes(bios[0]) && Aligned(m) && Aligned(n)
    ensures TwoSteps(bios, m, n)
  {
    var b := bios[0];
    var left := Consume(bios, m).left;
    DropSize(b.vecs, m);
    assert left[0] == Advanced(b, m) && left[1..] == bios[1..];
    if m + n < BioBytes(b) {
      AdvancedTwice(b, m, n);
    }
  }

  /** One completion after another. */
  function Then(p: Progress, r: Progress): Progress {
    Progress(p.ended + r.ended, r.left)
  }

  predicate TwoSteps(bios: seq<Bio>, m: nat, n: nat) {
    Consume(bios, m + n) == Then(Consume(bios, m), Consume(Consume(bios, m).left, n))
  }

  /** Completing in two steps is completing once. */
  lemma ConsumeTwice(bios: seq<Bio>, m: nat, n: nat)
    requires Contiguous(bios) && Aligned(m) && Aligned(n)
    ensures Consume(bios, m + n) == Then(Consume(bios, m), Consume(Consume(bios, m).left, n))
  {
    TwoStepsAlways(bios, m, n);
  }

  lemma {:induction false} TwoStepsAlways(bios: seq<Bio>, m: nat, n: nat)
    requires Contiguous(bios) && Aligned(m) && Aligned(n)
    ensures TwoSteps(bios, m, n)
    decreases |bios|
  {
    if bios != [] {
      SizeWhole(bios[0].vecs);
      TailContiguous(bios);
      if m < BioBytes(bios[0]) {
        ConsumeWithinFirst(bios, m, n);
      } else if m == BioBytes(bios[0]) {
        ConsumePastFirst(bios, n);
      } else {
        TwoStepsAlways(bios[1..], m - BioBytes(bios[0]), n);
        ConsumeBeyondFirst(bios, m, n);
      }
    }
  }

  lemma ConsumeBeyondFirst(bios: seq<Bio>, m: nat, n: nat)
    requires bios != [] && m > BioBytes(bios[0]) && TwoSteps(bios[1..], m - BioBytes(bios[0]), n)
    ensures TwoSteps(bios, m, n)
  {
    var p := Consume(bios[1..], m - BioBytes(bios[0]));
    ThenAssoc([bios[0].id], bios[1..], p, Consume(p.left, n));
    assert Consume(bios, m) == Progress([bios[0].id] + p.ended, p.left);
  }

  lemma ConsumePastFirst(bios: seq<Bio>, n: nat)
    requires Contiguous(bios) && bios != []
    ensures TwoSteps(bios, BioBytes(bios[0]), n)
  {
    TailContiguous(bios);
    if n == 0 {
      ConsumeNothing(bios[1..]);
    }
  }

  lemma ThenAssoc(ended: seq<nat>, bios: seq<Bio>, p: Progress, r: Progress)
    ensures Then(Progress(ended + p.ended, p.left), r) == Then(Progress(ended, bios), Then(p, r))
  {
    assert ended + p.ended + r.ended == ended + (p.ended + r.ended);
  }

  /** With `ended` ended and `bios` left, `left` more bytes complete what `n` bytes of `all` do. */
  predicate Reached(all: seq<Bio>, n: nat, ended: seq<nat>, bios: seq<Bio>, left: nat) {
    Then(Progress(ended, bios), Consume(bios, left)) == Consume(all, n)
  }

  lemma EndStep(all: seq<Bio>, count: nat, ended: seq<nat>, bios: seq<Bio>, left: nat, n: nat, p: Progress)
    requires Reached(all, count, ended, bios, left)
    requires Contiguous(bios) && n <= left && Aligned(left) && Aligned(n) && p == Consume(bios, n)
    ensures Contiguous(p.left) && Aligned(left - n)
    ensures Reached(all, count, ended + p.ended, p.left, left - n)
    ensures left == n ==> Progress(ended + p.ended, p.left) == Consume(all, count)
  {
    ConsumeContiguous(bios, n);
    StepReached(all, count, ended, bios, left, n, p);
    if left == n {
      ConsumeNothing(p.left);
    }
  }

  lemma StepReached(all: seq<Bio>, count: nat, ended: seq<nat>, bios: seq<Bio>, left: nat, n: nat, p: Progress)
    requires Reached(all, count, ended, bios, left)
    requires Contiguous(bios) && n <= left && Aligned(left - n) && Aligned(n) && p == Consume(bios, n)
    ensures Reached(all, count, ended + p.ended, p.left, left - n)
  {
    ConsumeTwice(bios, n, left - n);
    ThenAssoc(ended, bios, p, Consume(p.left, left - n));
  }

  function Sum(ns: seq<nat>): nat {
    if ns == [] then 0 else Sum(Front(ns)) + Last(ns)
  }

  /** A request completed in pieces. */
  function ConsumeAll(bios: seq<Bio>, ns: seq<nat>): (p: Progress) {
    if ns == [] then Progress([], bios)
    else
      var p := ConsumeAll(bios, Front(ns));
      Then(p, Consume(p.left, Last(ns)))
  }

  predicate AllAligned(ns: seq<nat>) {
    ns == [] || (AllAligned(Front(ns)) && Aligned(Last(ns)))
  }

  lemma AlignedSum(a: nat, b: nat)
    requires Aligned(a) && Aligned(b)
    ensures Aligned(a + b)
  {
  }

  lemma OnePieceMore(bios: seq<Bio>, p: Progress, m: nat, n: nat)
    requires Contiguous(bios) && Aligned(m) && Aligned(n) && p == Consume(bios, m)
    ensures Then(p, Consume(p.left, n)) == Consume(bios, m + n)
  {
    ConsumeTwice(bios, m, n);
  }

  /** However completion is cut into pieces, each bio is ended once, in order, when its last byte completes,
      and what is left is the bytes not yet completed. */
  lemma {:induction false} PiecesAreOne(bios: seq<Bio>, ns: seq<nat>)
    requires Contiguous(bios) && AllAligned(ns)
    ensures ConsumeAll(bios, ns) == Consume(bios, Sum(ns)) && Aligned(Sum(ns))
  {
    if ns == [] {
      ConsumeNothing(bios);
    } else {
      PiecesAreOne(bios, Front(ns));
      OnePieceMore(bios, ConsumeAll(bios, Front(ns)), Sum(Front(ns)), Last(ns));
      AlignedSum(Sum(Front(ns)), Last(ns));
    }
  }

  /** blk_update_request on values: completed bios go, the rest is recounted. */
  function Updated(q: Limits, r: Rq, n: nat): (u: Rq) {
    var left := Consume(r.bios, n).left;
    if left == [] then r.(bios := [], dataLen := 0)
    else
      var g := Greedy(q, Vecs(left));
      Rq(Recached(q, left, g), r.sector + Sectors(n), if n <= r.dataLen then r.dataLen - n else 0, |g|, r.noMerge)
  }

  lemma UpdatedIs(q: Limits, r: Rq, n: nat, bios: seq<Bio>, nr: nat)
    requires Consume(r.bios, n).left != [] && n <= r.dataLen
    requires var left := Consume(r.bios, n).left; bios == Recached(q, left, Greedy(q, Vecs(left))) && nr == |Greedy(q, Vecs(left))|
    ensures Updated(q, r, n) == Rq(bios, r.sector + Sectors(n), r.dataLen - n, nr, r.noMerge)
  {
  }

  /** The cached sizes at the two ends after a recount of the whole list. */
  function Recached(q: Limits, bios: seq<Bio>, g: seq<Seg>): (r: seq<Bio>)
    requires bios != []
    ensures |r| == |bios|
  {
    var f := bios[0 := bios[0].(segFront := Max(bios[0].segFront, if g == [] then 0 else Size(g[0])))];
    f[|f| - 1 := Last(f).(segBack := Max(Last(f).segBack, if g == [] then 0 else Size(Last(g))))]
  }

  lemma RecachedRefreshes(q: Limits, bios: seq<Bio>, g: seq<Seg>)
    requires bios != []
    ensures SameBios(bios, Recached(q, bios, g))
    ensures Recached(q, bios, g)[0].segFront >= if g == [] then 0 else Size(g[0])
    ensures Last(Recached(q, bios, g)).segBack >= if g == [] then 0 else Size(Last(g))
  {
    var f := bios[0 := bios[0].(segFront := Max(bios[0].segFront, if g == [] then 0 else Size(g[0])))];
    SameBiosUpdate(bios, 0, f[0]);
    SameBiosUpdate(f, |f| - 1, Last(Recached(q, bios, g)));
    SameBiosTrans(bios, f, Recached(q, bios, g));
  }

  lemma UpdateAccounts(q: Limits, r: Rq, n: nat)
    requires Accounted(r) && Aligned(n)
    ensures Accounted(Updated(q, r, n))
    ensures var left := Consume(r.bios, n).left; left != [] ==>
      n < r.dataLen && Updated(q, r, n).dataLen == Size(Vecs(left)) && Vecs(Updated(q, r, n).bios) == Vecs(left)
  {
    var left := Consume(r.bios, n).left;
    if left != [] {
      LeftAccounts(r, n);
      RecachedRefreshes(q, left, Greedy(q, Vecs(left)));
      SameAccounts(r.(bios := left, sector := r.sector + Sectors(n), dataLen := r.dataLen - n), Updated(q, r, n));
    }
  }

  lemma LeftAccounts(r: Rq, n: nat)
    requires Accounted(r) && Aligned(n) && Consume(r.bios, n).left != []
    ensures n < r.dataLen
    ensures Accounted(r.(bios := Consume(r.bios, n).left, sector := r.sector + Sectors(n), dataLen := r.dataLen - n))
  {
    ConsumeContiguous(r.bios, n);
    ConsumeDrops(r.bios, n);
    LeftMeansMore(r.bios, n);
    DropSize(Vecs(r.bios), n);
  }

  lemma {:induction false} LeftMeansMore(bios: seq<Bio>, n: nat)
    requires Contiguous(bios) && Consume(bios, n).left != []
    ensures n < Size(Vecs(bios))
  {
    VecsFirst(bios);
    SizeConcat(bios[0].vecs, Vecs(bios[1..]));
    TailContiguous(bios);
    if n == BioBytes(bios[0]) {
      VecsFirst(bios[1..]);
      SizeConcat(bios[1].vecs, Vecs(bios[1..][1..]));
      SizeWhole(bios[1].vecs);
    } else if n > BioBytes(bios[0]) {
      LeftMeansMore(bios[1..], n - BioBytes(bios[0]));
    }
  }

  lemma UpdateBounds(q: Limits, r: Rq, n: nat)
    requires Accounted(r) && Aligned(n)
    ensures SegmentsBounded(q, Updated(q, r, n))
  {
    var left := Consume(r.bios, n).left;
    if left != [] {
      UpdateAccounts(q, r, n);
      ConsumeContiguous(r.bios, n);
      var g := Greedy(q, Vecs(left));
      VecsFirst(left);
      GreedyCuts(q, Vecs(left));
      RecachedRefreshes(q, left, g);
      var u := Updated(q, r, n);
      CountedGreedy(q, Vecs(left), u.bios[0].segFront, Last(u.bios).segBack);
    }
  }

  // ---------------------------------------------------------------- the merge paths, on values

  datatype MergeKind = NoMerge | BackMerge | FrontMerge

  /** blk_try_merge. */
  function TryMerge(r: Rq, b: Bio): (k: MergeKind)
    ensures k == BackMerge <==> b.sector == r.sector + Sectors(r.dataLen)
    ensures k == FrontMerge ==> r.sector == BioEnd(b)
  {
    if r.sector + Sectors(r.dataLen) == b.sector then BackMerge
    else if r.sector - Sectors(BioBytes(b)) == b.sector then FrontMerge
    else NoMerge
  }

  /** blk_try_merge finds exactly the bios that continue the request at one of its ends. */
  lemma TryMergeAdjacent(r: Rq, b: Bio)
    requires Accounted(r) && r.bios != [] && Whole(b.vecs)
    ensures TryMerge(r, b) == BackMerge <==> Contiguous(r.bios + [b])
    ensures TryMerge(r, b) == FrontMerge <==> Contiguous([b] + r.bios)
  {
    SizeWhole(b.vecs);
    EndSector(r.bios);
    VecsFirst(r.bios);
    SizeConcat(r.bios[0].vecs, Vecs(r.bios[1..]));
    SizeWhole(r.bios[0].vecs);
    AdjacentBack(r.bios, b);
    AdjacentFront(r.bios, b);
  }

  lemma AdjacentBack(bios: seq<Bio>, b: Bio)
    requires Contiguous(bios) && bios != [] && Whole(b.vecs)
    ensures Contiguous(bios + [b]) <==> b.sector == BioEnd(Last(bios))
  {
    if Contiguous(bios + [b]) {
      assert Follows(bios + [b], |bios|);
    } else if b.sector == BioEnd(Last(bios)) {
      assert Follows([b], 0);
      ContiguousConcat(bios, [b]);
    }
  }

  lemma AdjacentFront(bios: seq<Bio>, b: Bio)
    requires Contiguous(bios) && bios != [] && Whole(b.vecs)
    ensures Contiguous([b] + bios) <==> bios[0].sector == BioEnd(b)
  {
    if Contiguous([b] + bios) {
      assert Follows([b] + bios, 1);
    } else if bios[0].sector == BioEnd(b) {
      assert Follows([b], 0);
      ContiguousConcat([b], bios);
    }
  }

  /** A bio with a segment count that can be relied on. */
  function Prepared(q: Limits, b: Bio): (c: Bio)
    ensures Refreshed(b, c) && c.segValid
  {
    if b.segValid then b else Recounted(q, b)
  }

  lemma PreparedInv(q: Limits, b: Bio)
    requires BioInv(q, b)
    ensures BioInv(q, Prepared(q, b))
  {
    RecountedInv(q, b);
  }

  function RefreshedAt(q: Limits, r: Rq, i: nat): (s: Rq)
    requires i < |r.bios|
  {
    r.(bios := r.bios[i := Prepared(q, r.bios[i])])
  }

  lemma RefreshedAtKeeps(q: Limits, r: Rq, i: nat)
    requires RqInv(q, r) && i < |r.bios|
    ensures RqInv(q, RefreshedAt(q, r, i)) && SameBios(r.bios, RefreshedAt(q, r, i).bios)
  {
    SameBiosUpdate(r.bios, i, Prepared(q, r.bios[i]));
    RefreshKeeps(q, r, RefreshedAt(q, r, i).bios);
  }

  /** bio_attempt_back_merge that succeeds: the tail and the bio are recounted if need be, then linked. */
  function BackMerged(q: Limits, r: Rq, b: Bio): (m: Rq)
    requires r.bios != []
  {
    Linked(RefreshedAt(q, r, |r.bios| - 1), Alone(Prepared(q, b)))
  }

  function FrontMerged(q: Limits, r: Rq, b: Bio): (m: Rq)
    requires r.bios != []
  {
    Linked(Alone(Prepared(q, b)), RefreshedAt(q, r, 0)).(noMerge := r.noMerge)
  }

  /** ll_new_hw_segment: a merge that starts a new segment. */
  function Linked(a: Rq, b: Rq): (m: Rq) {
    Merged(a, b, a.nr + b.nr)
  }

  /** What blk_rq_merge_ok asks of REQ_NOMERGE. */
  predicate Mergeable(r: Rq, b: Bio) {
    r.bios != [] && !r.noMerge && !b.noMerge
  }

  lemma BackMergedKeeps(q: Limits, r: Rq, b: Bio)
    requires RqInv(q, r) && BioInv(q, b) && Mergeable(r, b) && TryMerge(r, b) == BackMerge
    ensures RqInv(q, BackMerged(q, r, b))
  {
    RefreshedAtKeeps(q, r, |r.bios| - 1);
    PreparedInv(q, b);
    AloneInv(q, Prepared(q, b));
    LinkKeeps(q, RefreshedAt(q, r, |r.bios| - 1), Alone(Prepared(q, b)));
  }

  lemma FrontMergedKeeps(q: Limits, r: Rq, b: Bio)
    requires RqInv(q, r) && BioInv(q, b) && Mergeable(r, b) && TryMerge(r, b) == FrontMerge
    ensures RqInv(q, FrontMerged(q, r, b))
  {
    RefreshedAtKeeps(q, r, 0);
    PreparedInv(q, b);
    AloneInv(q, Prepared(q, b));
    LinkKeeps(q, Alone(Prepared(q, b)), RefreshedAt(q, r, 0));
  }

  lemma LinkKeeps(q: Limits, a: Rq, b: Rq)
    requires RqInv(q, a) && RqInv(q, b) && a.bios != [] && b.bios != [] && b.sector == a.sector + Sectors(a.dataLen)
    requires !a.noMerge && !b.noMerge
    ensures RqInv(q, Linked(a, b))
  {
    MergeAccounts(a, b, a.nr + b.nr);
    MergeBounds(q, a, b);
  }

  // ---------------------------------------------------------------- merge attempts, on values

  /** A request whose bios went elsewhere. */
  const NOTHING: Rq := Rq([], 0, 0, 0, false)

  lemma NothingInv(q: Limits)
    ensures RqInv(q, NOTHING)
  {
  }

  /** The checks before the segment limit: allowed; refused because of a gap; or too large, for good. */
  datatype Verdict = Allowed | Gap | TooLarge

  /** What the checks say of a bio that would make the request start at `start`. */
  function JudgedAt(q: Limits, r: Rq, b: Bio, start: nat, gap: bool): Verdict {
    if gap then Gap else if Sectors(r.dataLen) + Sectors(BioBytes(b)) > q.maxSectors(start) then TooLarge else Allowed
  }

  /** At the end of the request that blk_try_merge names. */
  function Judged(q: Limits, r: Rq, b: Bio, gap: bool): Verdict {
    JudgedAt(q, r, b, if TryMerge(r, b) == FrontMerge then b.sector else r.sector, gap)
  }

  /** A request no longer to be merged. */
  function Barred(r: Rq): (s: Rq) {
    r.(noMerge := true)
  }

  lemma BarredKeeps(q: Limits, r: Rq)
    requires RqInv(q, r)
    ensures RqInv(q, Barred(r))
  {
    if r.bios != [] {
      SufficeBounds(q, Vecs(r.bios), r.nr, r.bios[0].segFront, Last(r.bios).segBack, r.noMerge);
    }
  }

  /** Whether ll_new_hw_segment finds room. */
  predicate Room(q: Limits, r: Rq, b: Bio) {
    r.nr + Prepared(q, b).physSegments <= q.maxSegments
  }

  /** bio_attempt_back_merge with ll_back_merge_fn. */
  function BackStep(q: Limits, r: Rq, b: Bio, v: Verdict): (m: Rq)
    requires r.bios != []
  {
    match v
    case Gap => r
    case TooLarge => Barred(r)
    case Allowed => if Room(q, r, b) then BackMerged(q, r, b) else Barred(RefreshedAt(q, r, |r.bios| - 1))
  }

  /** bio_attempt_front_merge with ll_front_merge_fn. */
  function FrontStep(q: Limits, r: Rq, b: Bio, v: Verdict): (m: Rq)
    requires r.bios != []
  {
    match v
    case Gap => r
    case TooLarge => Barred(r)
    case Allowed => if Room(q, r, b) then FrontMerged(q, r, b) else Barred(RefreshedAt(q, r, 0))
  }

  /** A bio offered to a request: the request afterwards, and whether it took the bio. */
  function BioStep(q: Limits, r: Rq, b: Bio, v: Verdict): (p: (Rq, bool)) {
    if !Mergeable(r, b) then (r, false)
    else
      match TryMerge(r, b)
      case NoMerge => (r, false)
      case BackMerge => (BackStep(q, r, b, v), v == Allowed && Room(q, r, b))
      case FrontMerge => (FrontStep(q, r, b, v), v == Allowed && Room(q, r, b))
  }

  /** Merged or refused, the request stays sound. */
  lemma BioStepKeeps(q: Limits, r: Rq, b: Bio, v: Verdict)
    requires RqInv(q, r) && BioInv(q, b)
    ensures RqInv(q, BioStep(q, r, b, v).0)
  {
    if Mergeable(r, b) && TryMerge(r, b) == BackMerge {
      BackStepKeeps(q, r, b, v);
    } else if Mergeable(r, b) && TryMerge(r, b) == FrontMerge {
      FrontStepKeeps(q, r, b, v);
    }
    BioStepIs(q, r, b, v);
  }

  lemma BioStepIs(q: Limits, r: Rq, b: Bio, v: Verdict)
    ensures Mergeable(r, b) && TryMerge(r, b) == BackMerge ==> BioStep(q, r, b, v).0 == BackStep(q, r, b, v)
    ensures Mergeable(r, b) && TryMerge(r, b) == FrontMerge ==> BioStep(q, r, b, v).0 == FrontStep(q, r, b, v)
    ensures !Mergeable(r, b) || TryMerge(r, b) == NoMerge ==> BioStep(q, r, b, v).0 == r
  {
  }

  lemma BackStepKeeps(q: Limits, r: Rq, b: Bio, v: Verdict)
    requires RqInv(q, r) && BioInv(q, b) && Mergeable(r, b) && TryMerge(r, b) == BackMerge
    ensures RqInv(q, BackStep(q, r, b, v))
  {
    BarredKeeps(q, r);
    BackMergedKeeps(q, r, b);
    RefreshedAtKeeps(q, r, |r.bios| - 1);
    BarredKeeps(q, RefreshedAt(q, r, |r.bios| - 1));
  }

  lemma FrontStepKeeps(q: Limits, r: Rq, b: Bio, v: Verdict)
    requires RqInv(q, r) && BioInv(q, b) && Mergeable(r, b) && TryMerge(r, b) == FrontMerge
    ensures RqInv(q, FrontStep(q, r, b, v))
  {
    BarredKeeps(q, r);
    FrontMergedKeeps(q, r, b);
    RefreshedAtKeeps(q, r, 0);
    BarredKeeps(q, RefreshedAt(q, r, 0));
  }

  /** ll_merge_requests_fn when the inner ends share a segment: sizes are raised first, then the limit decides. */
  function PairJoined(q: Limits, a: Rq, b: Rq): (p: (Rq, Rq))
    requires a.bios != [] && b.bios != [] && a.nr + b.nr > 0
  {
    var size := Last(a.bios).segBack + b.bios[0].segFront;
    if a.nr + b.nr - 1 > q.maxSegments then (FrontRaised(a, size), BackRaised(b, size))
    else (JoinMerged(a, b, size), NOTHING)
  }

  function PairLinked(q: Limits, a: Rq, b: Rq): (p: (Rq, Rq)) {
    if a.nr + b.nr > q.maxSegments then (a, b) else (Linked(a, b), NOTHING)
  }

  /** What the inner ends of two mergeable requests always have. */
  predicate Joinable(a: Rq, b: Rq) {
    a.bios != [] && b.bios != [] &&
    (!a.noMerge && !b.noMerge ==> Last(a.bios).vecs != [] && b.bios[0].vecs != [] && a.nr + b.nr > 0)
  }

  /** attempt_merge: the first request and the second one afterwards. */
  function PairMerged(q: Limits, a: Rq, b: Rq, ok: bool): (p: (Rq, Rq))
    requires Joinable(a, b)
  {
    if a.noMerge || b.noMerge || !ok || a.sector + Sectors(a.dataLen) != b.sector then (a, b)
    else if ContigSegment(q, Last(a.bios), b.bios[0]) then PairJoined(q, a, b)
    else PairLinked(q, a, b)
  }

  lemma PairJoinedIs(q: Limits, a: Rq, b: Rq, size: nat)
    requires a.bios != [] && b.bios != [] && a.nr + b.nr > 0 && size == Last(a.bios).segBack + b.bios[0].segFront
    ensures a.nr + b.nr - 1 > q.maxSegments ==> PairJoined(q, a, b) == (FrontRaised(a, size), BackRaised(b, size))
    ensures a.nr + b.nr - 1 <= q.maxSegments ==> PairJoined(q, a, b) == (JoinMerged(a, b, size), NOTHING)
  {
  }

  lemma PairJoinedKeeps(q: Limits, a: Rq, b: Rq)
    requires RqInv(q, a) && RqInv(q, b) && a.bios != [] && b.bios != [] && a.nr + b.nr > 0 && !a.noMerge && !b.noMerge
    requires b.sector == a.sector + Sectors(a.dataLen) && ContigSegment(q, Last(a.bios), b.bios[0])
    ensures RqInv(q, PairJoined(q, a, b).0) && RqInv(q, PairJoined(q, a, b).1)
  {
    var size := Last(a.bios).segBack + b.bios[0].segFront;
    PairJoinedIs(q, a, b, size);
    FrontRaisedKeeps(q, a, size);
    BackRaisedKeeps(q, b, size);
    NothingInv(q);
    JoinMergeKeeps(q, a, b, size);
  }

  lemma PairLinkedKeeps(q: Limits, a: Rq, b: Rq)
    requires RqInv(q, a) && RqInv(q, b) && a.bios != [] && b.bios != [] && b.sector == a.sector + Sectors(a.dataLen)
    requires !a.noMerge && !b.noMerge
    ensures RqInv(q, PairLinked(q, a, b).0) && RqInv(q, PairLinked(q, a, b).1)
  {
    NothingInv(q);
    LinkKeeps(q, a, b);
  }

  lemma InvJoinable(q: Limits, a: Rq, b: Rq)
    requires RqInv(q, a) && RqInv(q, b) && a.bios != [] && b.bios != []
    ensures Joinable(a, b)
  {
    if !a.noMerge {
      CountedPositive(q, Vecs(a.bios), a.nr, a.bios[0].segFront, Last(a.bios).segBack);
    }
  }

  /** Merged or refused, both requests stay sound. */
  lemma PairMergedKeeps(q: Limits, a: Rq, b: Rq, ok: bool)
    requires RqInv(q, a) && RqInv(q, b) && Joinable(a, b)
    ensures RqInv(q, PairMerged(q, a, b, ok).0) && RqInv(q, PairMerged(q, a, b, ok).1)
  {
    if b.sector == a.sector + Sectors(a.dataLen) && !a.noMerge && !b.noMerge {
      PairLinkedKeeps(q, a, b);
      if ContigSegment(q, Last(a.bios), b.bios[0]) {
        PairJoinedKeeps(q, a, b);
      }
    }
  }

  lemma CountedPositive(q: Limits, bvs: Seg, nr: nat, front: nat, back: nat)
    requires Counted(q, bvs, nr, front, back)
    ensures nr > 0
  {
    var v :| CountedBy(q, v, bvs, nr, front, back);
  }

  /** A merge loses and reorders nothing, and a refused one changes neither list. */
  lemma PairMergedConserves(q: Limits, a: Rq, b: Rq, ok: bool)
    requires Joinable(a, b)
    ensures var p := PairMerged(q, a, b, ok);
      Vecs(p.0.bios + p.1.bios) == Vecs(a.bios + b.bios) && Ids(p.0.bios + p.1.bios) == Ids(a.bios + b.bios)
  {
    var size := Last(a.bios).segBack + b.bios[0].segFront;
    RaisedConserves(a, b, size);
    PairBios(q, a, b, ok, size);
  }

  lemma PairBios(q: Limits, a: Rq, b: Rq, ok: bool, size: nat)
    requires Joinable(a, b) && size == Last(a.bios).segBack + b.bios[0].segFront
    ensures var p := PairMerged(q, a, b, ok);
      || p.0.bios + p.1.bios == a.bios + b.bios
      || p.0.bios + p.1.bios == FrontRaised(a, size).bios + BackRaised(b, size).bios
  {
  }

  lemma RaisedConserves(a: Rq, b: Rq, size: nat)
    requires a.bios != [] && b.bios != []
    ensures Vecs(FrontRaised(a, size).bios + BackRaised(b, size).bios) == Vecs(a.bios + b.bios)
    ensures Ids(FrontRaised(a, size).bios + BackRaised(b, size).bios) == Ids(a.bios + b.bios)
  {
    RaisedSame(a, b, size);
    SameBiosFacts(a.bios, FrontRaised(a, size).bios);
    SameBiosFacts(b.bios, BackRaised(b, size).bios);
    VecsConcat(FrontRaised(a, size).bios, BackRaised(b, size).bios);
    IdsConcat(FrontRaised(a, size).bios, BackRaised(b, size).bios);
    VecsConcat(a.bios, b.bios);
    IdsConcat(a.bios, b.bios);
  }

  lemma UpdateKeeps(q: Limits, r: Rq, n: nat)
    requires RqInv(q, r) && Aligned(n)
    ensures RqInv(q, Updated(q, r, n))
  {
    UpdateAccounts(q, r, n);
    UpdateBounds(q, r, n);
  }

  lemma InvFitsUpdated(q: Limits, r: Rq, n: nat)
    requires RqInv(q, r) && Aligned(n)
    ensures var u := Updated(q, r, n); u.bios != [] ==> u.bios[0].vecs != [] && u.bios[0].vecs[0].len <= u.dataLen
  {
    UpdateKeeps(q, r, n);
    InvFits(q, Updated(q, r, n));
  }

  lemma InvFits(q: Limits, r: Rq)
    requires RqInv(q, r)
    ensures Accounted(r)
    ensures r.bios != [] ==> |SgList(Greedy(q, Vecs(r.bios)))| <= r.nr && r.bios[0].vecs[0].len <= r.dataLen
  {
    if r.bios != [] {
      SufficeBounds(q, Vecs(r.bios), r.nr, r.bios[0].segFront, Last(r.bios).segBack, r.noMerge);
      VecsFirst(r.bios);
      SizeConcat(r.bios[0].vecs, Vecs(r.bios[1..]));
      SizeFirst(r.bios[0].vecs);
    }
  }

  // ---------------------------------------------------------------- exactly when a merge happens

  /** A bio that ends where the request starts, or starts where it ends, neither of them barred from merging. */
  predicate Asked(r: Rq, b: Bio) {
    r.bios != [] && !r.noMerge && !b.noMerge && (b.sector == r.sector + Sectors(r.dataLen) || r.sector == BioEnd(b))
  }

  /** Where the request would start with the bio. */
  function Start(r: Rq, b: Bio): nat {
    if b.sector == r.sector + Sectors(r.dataLen) then r.sector else b.sector
  }

  predicate Takes(q: Limits, r: Rq, b: Bio, gap: bool) {
    && Asked(r, b) && !gap
    && Sectors(r.dataLen) + Sectors(BioBytes(b)) <= q.maxSectors(Start(r, b))
    && r.nr + Prepared(q, b).physSegments <= q.maxSegments
  }

  lemma AlignedAdd(m: nat, n: nat)
    requires Aligned(m) && Aligned(n)
    ensures Sectors(m + n) == Sectors(m) + Sectors(n)
  {
  }

  /** A bio is merged exactly when it is adjacent, may be merged, leaves no gap, and the sector and segment limits allow
      it; the request then has both.  If only a limit stands against it, no bio is ever merged to it again. */
  lemma TakesExactly(q: Limits, r: Rq, b: Bio, gap: bool)
    requires r.bios != []
    ensures var (m, taken) := BioStep(q, r, b, Judged(q, r, b, gap));
      && (taken <==> Takes(q, r, b, gap))
      && (m.noMerge <==> r.noMerge || (Asked(r, b) && !gap && !taken))
      && (taken ==> m.sector == Start(r, b) && m.dataLen == r.dataLen + BioBytes(b))
      && (taken && Aligned(r.dataLen) && Aligned(BioBytes(b)) ==> Sectors(m.dataLen) <= q.maxSectors(m.sector))
      && (!taken ==> m.sector == r.sector && m.dataLen == r.dataLen && m.nr == r.nr && Ids(m.bios) == Ids(r.bios))
  {
    if Aligned(r.dataLen) && Aligned(BioBytes(b)) {
      AlignedAdd(r.dataLen, BioBytes(b));
    }
    RefreshedIds(q, r, |r.bios| - 1);
    RefreshedIds(q, r, 0);
  }

  lemma RefreshedIds(q: Limits, r: Rq, i: nat)
    requires i < |r.bios|
    ensures Ids(RefreshedAt(q, r, i).bios) == Ids(r.bios)
  {
    SameBiosUpdate(r.bios, i, Prepared(q, r.bios[i]));
    SameBiosFacts(r.bios, RefreshedAt(q, r, i).bios);
  }

  /** The two requests together are not too large. */
  predicate Small(q: Limits, a: Rq, b: Rq) {
    Sectors(a.dataLen) + Sectors(b.dataLen) <= q.maxSectors(a.sector)
  }

  /** The segments of two requests put together. */
  function Total(q: Limits, a: Rq, b: Rq): int
    requires a.bios != [] && b.bios != [] && Last(a.bios).vecs != [] && b.bios[0].vecs != []
  {
    a.nr + b.nr - if ContigSegment(q, Last(a.bios), b.bios[0]) then 1 else 0
  }

  predicate Absorbs(q: Limits, a: Rq, b: Rq, allowed: bool)
    requires Joinable(a, b)
  {
    && !a.noMerge && !b.noMerge && allowed && b.sector == a.sector + Sectors(a.dataLen) && Small(q, a, b)
    && Total(q, a, b) <= q.maxSegments
  }

  /** A request is absorbed exactly when it follows, may be merged, and the sector and segment limits allow it. */
  lemma AbsorbsExactly(q: Limits, a: Rq, b: Rq, allowed: bool)
    requires Joinable(a, b)
    ensures var (m, rest) := PairMerged(q, a, b, allowed && Small(q, a, b));
      && (rest.bios == [] <==> Absorbs(q, a, b, allowed))
      && (rest.bios == [] ==> m.sector == a.sector && m.dataLen == a.dataLen + b.dataLen && m.nr == Total(q, a, b))
      && (rest.bios == [] && Aligned(a.dataLen) && Aligned(b.dataLen) ==> Sectors(m.dataLen) <= q.maxSectors(m.sector))
      && (rest.bios != [] ==> (m.sector, m.dataLen, m.nr) == (a.sector, a.dataLen, a.nr))
      && (rest.bios != [] ==> (rest.sector, rest.dataLen, rest.nr) == (b.sector, b.dataLen, b.nr))
  {
    if Aligned(a.dataLen) && Aligned(b.dataLen) {
      AlignedAdd(a.dataLen, b.dataLen);
    }
  }

  // ---------------------------------------------------------------- the code

  /** struct request: the fields of Rq. */
  class Request {
    var bios: seq<Bio>
    var sector: nat
    var dataLen: nat
    var nrPhysSegments: nat
    var noMerge: bool

    ghost function View(): Rq
      reads this
    {
      Rq(bios, sector, dataLen, nrPhysSegments, noMerge)
    }

    /** A request made of one bio. */
    constructor (q: Limits, b: Bio)
      ensures View() == Alone(Prepared(q, b))
    {
      var c := Prepare(q, b);
      bios := [c];
      sector := c.sector;
      dataLen := BioBytes(c);
      nrPhysSegments := c.physSegments;
      noMerge := c.noMerge;
    }

    /** ll_new_hw_segment, up to the counter. */
    method NewHwSegment(q: Limits, count: nat) returns (ok: bool)
      modifies this`nrPhysSegments, this`noMerge
      ensures ok <==> old(nrPhysSegments) + count <= q.maxSegments
      ensures nrPhysSegments == old(nrPhysSegments) + if ok then count else 0
      ensures noMerge == (old(noMerge) || !ok)
    {
      ok := nrPhysSegments + count <= q.maxSegments;
      if ok {
        nrPhysSegments := nrPhysSegments + count;
      } else {
        noMerge := true;
      }
    }

    /** The checks before a bio merge that would make the request start at `start`: a gap, or too many sectors. */
    method MayGrow(q: Limits, b: Bio, start: nat, gap: bool) returns (ok: bool)
      modifies this`noMerge
      ensures ok <==> !gap && Sectors(dataLen) + Sectors(BioBytes(b)) <= q.maxSectors(start)
      ensures noMerge <==> old(noMerge) || (!gap && !ok)
    {
      ok := !gap;
      if ok && Sectors(dataLen) + Sectors(BioBytes(b)) > q.maxSectors(start) {
        noMerge := true;
        ok := false;
      }
    }

    /** bio_attempt_back_merge with ll_back_merge_fn. */
    method AttemptBackMerge(q: Limits, b: Bio, gap: bool) returns (merged: bool)
      requires bios != []
      modifies this
      ensures merged <==> !gap && Sectors(old(dataLen)) + Sectors(BioBytes(b)) <= q.maxSectors(old(sector)) && Room(q, old(View()), b)
      ensures View() == BackStep(q, old(View()), b, JudgedAt(q, old(View()), b, old(sector), gap))
    {
      merged := MayGrow(q, b, sector, gap);
      if merged {
        var tail := Prepare(q, bios[|bios| - 1]);
        bios := bios[|bios| - 1 := tail];
        var c := Prepare(q, b);
        merged := NewHwSegment(q, c.physSegments);
        if merged {
          bios := bios + [c];
          dataLen := dataLen + BioBytes(c);
        }
      }
    }

    /** bio_attempt_front_merge with ll_front_merge_fn. */
    method AttemptFrontMerge(q: Limits, b: Bio, gap: bool) returns (merged: bool)
      requires bios != []
      modifies this
      ensures merged <==> !gap && Sectors(old(dataLen)) + Sectors(BioBytes(b)) <= q.maxSectors(b.sector) && Room(q, old(View()), b)
      ensures View() == FrontStep(q, old(View()), b, JudgedAt(q, old(View()), b, b.sector, gap))
    {
      merged := MayGrow(q, b, b.sector, gap);
      if merged {
        var c := Prepare(q, b);
        var head := Prepare(q, bios[0]);
        bios := bios[0 := head];
        merged := NewHwSegment(q, c.physSegments);
        if merged {
          bios := [c] + bios;
          sector := c.sector;
          dataLen := dataLen + BioBytes(c);
        }
      }
    }

    /** The part of blk_rq_merge_ok about REQ_NOMERGE, then the attempt blk_try_merge calls for. */
    method MergeBio(q: Limits, b: Bio, gap: bool) returns (merged: bool)
      requires bios != []
      modifies this
      ensures (View(), merged) == BioStep(q, old(View()), b, Judged(q, old(View()), b, gap))
      ensures merged <==> Takes(q, old(View()), b, gap)
      ensures noMerge <==> old(noMerge) || (Asked(old(View()), b) && !gap && !merged)
      ensures merged ==> sector == Start(old(View()), b) && dataLen == old(dataLen) + BioBytes(b)
      ensures merged && Aligned(old(dataLen)) && Aligned(BioBytes(b)) ==> Sectors(dataLen) <= q.maxSectors(sector)
    {
      TakesExactly(q, View(), b, gap);
      merged := false;
      if noMerge || b.noMerge {
        return;
      }
      if sector + Sectors(dataLen) == b.sector {
        merged := AttemptBackMerge(q, b, gap);
      } else if sector - Sectors(BioBytes(b)) == b.sector {
        merged := AttemptFrontMerge(q, b, gap);
      }
    }

    /** attempt_merge with ll_merge_requests_fn; `allowed` stands for the checks on flags other than
        REQ_NOMERGE, operation, device, keys and gaps. */
    method AttemptMerge(q: Limits, next: Request, allowed: bool) returns (merged: bool)
      requires this != next && Joinable(View(), next.View())
      modifies this, next
      ensures (View(), next.View()) == PairMerged(q, old(View()), old(next.View()), allowed && Small(q, old(View()), old(next.View())))
      ensures merged <==> next.bios == []
      ensures merged <==> Absorbs(q, old(View()), old(next.View()), allowed)
      ensures merged ==> sector == old(sector) && dataLen == old(dataLen) + old(next.dataLen)
      ensures merged && Aligned(old(dataLen)) && Aligned(old(next.dataLen)) ==> Sectors(dataLen) <= q.maxSectors(sector)
    {
      AbsorbsExactly(q, View(), next.View(), allowed);
      merged := false;
      if noMerge || next.noMerge || !allowed || sector + Sectors(dataLen) != next.sector {
        return;
      }
      if Sectors(dataLen) + Sectors(next.dataLen) > q.maxSectors(sector) {
        return;
      }
      var total := nrPhysSegments + next.nrPhysSegments;
      var tail, head := bios[|bios| - 1], next.bios[0];
      if ContigSegment(q, tail, head) {
        RaiseSizes(next, tail.segBack + head.segFront);
        total := total - 1;
      }
      if total > q.maxSegments {
        return;
      }
      Absorb(next, total);
      merged := true;
    }

    /** blk_rq_map_sg without padding and drain: it never needs more entries than announced. */
    method MapToSg(q: Limits) returns (sg: seq<Sg>)
      requires RqInv(q, View())
      ensures sg == SgList(Greedy(q, Vecs(bios)))
      ensures bios != [] ==> |sg| <= nrPhysSegments
    {
      sg := MapSg(q, bios);
      InvFits(q, View());
    }

    /** One turn of the loop of blk_update_request: complete what the first bio can take. */
    method EndFirst(left: nat) returns (n: nat, ended: seq<nat>)
      requires Contiguous(bios) && bios != []
      modifies this`bios
      ensures n <= left && (n < left ==> n == BioBytes(old(bios)[0]))
      ensures Progress(ended, bios) == Consume(old(bios), n)
      ensures n < left ==> |bios| < |old(bios)|
      ensures Aligned(left) ==> Aligned(n)
    {
      var bio := bios[0];
      SizeWhole(bio.vecs);
      n := if BioBytes(bio) < left then BioBytes(bio) else left;
      ended := [];
      if n == BioBytes(bio) {
        bios := bios[1..];
        ended := [bio.id];
      } else {
        bios := [Advanced(bio, n)] + bios[1..];
      }
    }

    /** The loop of blk_update_request over the bios. */
    method EndBios(count: nat) returns (ended: seq<nat>, total: nat)
      requires Contiguous(bios) && Aligned(count)
      modifies this`bios
      ensures Progress(ended, bios) == Consume(old(bios), count)
      ensures bios != [] ==> total == count
    {
      ended, total := [], 0;
      var left: nat := count;
      while bios != []
        invariant Contiguous(bios) && Aligned(left) && total + left == count
        invariant Reached(old(bios), count, ended, bios, left)
        decreases |bios|
      {
        ghost var before := bios;
        var n, e := EndFirst(left);
        EndStep(old(bios), count, ended, before, left, n, Progress(e, bios));
        ended := ended + e;
        total := total + n;
        left := left - n;
        if left == 0 {
          break;
        }
      }
    }

    /** blk_update_request for a filesystem request and a whole number of sectors. */
    method Update(q: Limits, count: nat) returns (more: bool, ended: seq<nat>)
      requires RqInv(q, View()) && Aligned(count)
      modifies this
      ensures ended == Consume(old(bios), count).ended
      ensures View() == (if old(bios) == [] then old(View()) else Updated(q, old(View()), count))
      ensures more <==> bios != []
    {
      ended := [];
      if bios == [] {
        return false, ended;
      }
      UpdateAccounts(q, View(), count);
      ghost var before := View();
      var total;
      ended, total := EndBios(count);
      if bios == [] {
        dataLen := 0;
        return false, ended;
      }
      Resize(q, before, total);
      InvFitsUpdated(q, before, count);
      assert dataLen >= bios[0].vecs[0].len;  // "request botched" cannot happen
      more := true;
    }

    /** The end of blk_update_request: position, length and segment count of what is left. */
    method Resize(q: Limits, ghost before: Rq, total: nat)
      requires bios == Consume(before.bios, total).left && bios != []
      requires sector == before.sector && dataLen == before.dataLen && noMerge == before.noMerge && total <= dataLen
      modifies this
      ensures View() == Updated(q, before, total)
    {
      sector := sector + Sectors(total);
      dataLen := dataLen - total;
      Recount(q);
      UpdatedIs(q, before, total, bios, nrPhysSegments);
    }

    /** blk_recalc_rq_segments. */
    method Recount(q: Limits)
      requires bios != []
      modifies this`bios, this`nrPhysSegments
      ensures var g := Greedy(q, Vecs(old(bios))); bios == Recached(q, old(bios), g) && nrPhysSegments == |g|
    {
      var nr, front, back := RecalcSegments(q, bios);
      nrPhysSegments := nr;
      bios := bios[0 := bios[0].(segFront := front)];
      bios := bios[|bios| - 1 := bios[|bios| - 1].(segBack := back)];
    }

    method RaiseSizes(next: Request, size: nat)
      requires this != next && bios != [] && next.bios != []
      modifies this`bios, next`bios
      ensures View() == FrontRaised(old(View()), size) && next.View() == BackRaised(old(next.View()), size)
    {
      if nrPhysSegments == 1 {
        bios := bios[0 := bios[0].(segFront := size)];
      }
      if next.nrPhysSegments == 1 {
        var n := |next.bios| - 1;
        next.bios := next.bios[n := next.bios[n].(segBack := size)];
      }
    }

    /** Append the successor's bios and let it go. */
    method Absorb(next: Request, total: nat)
      requires this != next && !next.noMerge
      modifies this, next
      ensures View() == Merged(old(View()), old(next.View()), total) && next.View() == NOTHING
    {
      nrPhysSegments := total;
      bios := bios + next.bios;
      dataLen := dataLen + next.dataLen;
      next.bios, next.sector, next.dataLen, next.nrPhysSegments := [], 0, 0, 0;
    }
  }

  method Prepare(q: Limits, b: Bio) returns (c: Bio)
    ensures c == Prepared(q, b)
  {
    c := b;
    if !b.segValid {
      c := RecountSegments(q, b);
    }
  }
}
