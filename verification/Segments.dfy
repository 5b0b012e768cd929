/** Physical segments of a request: block/blk-merge.c.

    A segmentation cuts a list of bio vectors into consecutive groups, each of which the
    hardware can take as one segment.  The kernel's loops all compute the greedy one; the
    merge paths only keep the size of some valid one.  This module holds the theory they share.
 */
module Segments {
  import opened Common

  /** A struct bio_vec as the iterator yields it. */
  datatype Bvec = Bvec(page: nat, offset: nat, len: nat)

  /** Queue limits.  BIOVEC_PHYS_MERGEABLE and BIOVEC_SEG_BOUNDARY are arbitrary relations on neighbours;
      blk_rq_get_max_sectors is an arbitrary function of the sector a request starts at. */
  datatype Limits = Limits(
    cluster: bool,
    maxSegmentSize: nat,
    maxSegments: nat,
    maxSectors: nat -> nat,
    physMergeable: (Bvec, Bvec) -> bool,
    segBoundary: (Bvec, Bvec) -> bool)

  /** Two neighbours may share a segment. */
  predicate Join(q: Limits, a: Bvec, b: Bvec) {
    q.cluster && q.physMergeable(a, b) && q.segBoundary(a, b)
  }

  type Seg = seq<Bvec>

  function Size(s: Seg): (n: nat)
    ensures s != [] ==> n >= s[|s| - 1].len
  {
    if s == [] then 0 else Size(s[..|s| - 1]) + s[|s| - 1].len
  }

  lemma {:induction false} SizeConcat(a: Seg, b: Seg)
    ensures Size(a + b) == Size(a) + Size(b)
  {
    if b == [] {
      assert a + b == a;
    } else {
      var n := |b| - 1;
      assert (a + b)[..|a + b| - 1] == a + b[..n];
      SizeConcat(a, b[..n]);
    }
  }

  function Flat(v: seq<Seg>): Seg {
    if v == [] then [] else Flat(v[..|v| - 1]) + v[|v| - 1]
  }

  lemma {:induction false} FlatConcat(a: seq<Seg>, b: seq<Seg>)
    ensures Flat(a + b) == Flat(a) + Flat(b)
  {
    if b == [] {
      assert a + b == a;
    } else {
      var n := |b| - 1;
      assert (a + b)[..|a + b| - 1] == a + b[..n];
      FlatConcat(a, b[..n]);
    }
  }

  /** All neighbours may share a segment. */
  predicate Chained(q: Limits, s: Seg) {
    |s| < 2 || (Chained(q, Front(s)) && Join(q, s[|s| - 2], s[|s| - 1]))
  }

  lemma {:induction false} ChainedConcat(q: Limits, s: Seg, t: Seg)
    requires Chained(q, s) && Chained(q, t) && (s != [] && t != [] ==> Join(q, Last(s), t[0]))
    ensures Chained(q, s + t)
  {
    if t == [] {
      assert s + t == s;
    } else {
      assert Front(s + t) == s + Front(t);
      ChainedConcat(q, s, Front(t));
    }
  }

  /** One segment the hardware accepts.  A single vector is always one, however long. */
  predicate ValidSeg(q: Limits, s: Seg) {
    && s != []
    && (|s| > 1 ==> Size(s) <= q.maxSegmentSize)
    && Chained(q, s)
  }

  predicate Valid(q: Limits, v: seq<Seg>) {
    forall i :: 0 <= i < |v| ==> ValidSeg(q, v[i])
  }

  /** `v` is a way to cut `bvs` into segments. */
  predicate Cuts(q: Limits, v: seq<Seg>, bvs: Seg) {
    Valid(q, v) && Flat(v) == bvs
  }

  function Last<T>(s: seq<T>): T
    requires s != []
  {
    s[|s| - 1]
  }

  function Front<T>(s: seq<T>): seq<T>
    requires s != []
  {
    s[..|s| - 1]
  }

  // ---------------------------------------------------------------- the greedy segmentation

  /** The test all three loops make before extending the open segment. */
  predicate Fits(q: Limits, s: Seg, b: Bvec) {
    s != [] && Size(s) + b.len <= q.maxSegmentSize && Join(q, Last(s), b)
  }

  function Greedy(q: Limits, bvs: Seg): (v: seq<Seg>) {
    if bvs == [] then []
    else Extend(q, Greedy(q, Front(bvs)), Last(bvs))
  }

  function Extend(q: Limits, v: seq<Seg>, b: Bvec): (w: seq<Seg>) {
    if v != [] && Fits(q, Last(v), b) then Front(v) + [Last(v) + [b]] else v + [[b]]
  }

  lemma {:induction false} ExtendCuts(q: Limits, v: seq<Seg>, bvs: Seg, b: Bvec)
    requires Cuts(q, v, bvs)
    ensures Cuts(q, Extend(q, v, b), bvs + [b])
  {
    var w := Extend(q, v, b);
    if v != [] && Fits(q, Last(v), b) {
      SizeConcat(Last(v), [b]);
      assert Front(w) == Front(v) && v == Front(v) + [Last(v)];
      assert Front(Last(v) + [b]) == Last(v);
      assert ValidSeg(q, Last(v) + [b]);
      assert Flat(w) == Flat(Front(v)) + (Last(v) + [b]) == Flat(v) + [b];
    } else {
      assert Front(w) == v;
      assert ValidSeg(q, [b]);
    }
  }

  /** Greedy is a segmentation. */
  lemma {:induction false} GreedyCuts(q: Limits, bvs: Seg)
    ensures Cuts(q, Greedy(q, bvs), bvs)
    ensures bvs != [] ==> Greedy(q, bvs) != []
  {
    if bvs != [] {
      GreedyCuts(q, Front(bvs));
      ExtendCuts(q, Greedy(q, Front(bvs)), Front(bvs), Last(bvs));
      assert bvs == Front(bvs) + [Last(bvs)];
    }
  }

  /** Fewer segments, or as many with no longer a last one. */
  predicate NoWorse(a: seq<Seg>, b: seq<Seg>) {
    |a| < |b| || (|a| == |b| && (a != [] ==> Size(Last(a)) <= Size(Last(b))))
  }

  /** Take the last vector off a segmentation. */
  function Shrink(v: seq<Seg>): (w: seq<Seg>)
    requires v != [] && Last(v) != []
  {
    if |Last(v)| == 1 then Front(v) else Front(v) + [Front(Last(v))]
  }

  lemma {:induction false} ShrinkCuts(q: Limits, v: seq<Seg>, bvs: Seg)
    requires Cuts(q, v, bvs) && bvs != []
    ensures v != [] && Last(v) != []
    ensures Cuts(q, Shrink(v), Front(bvs)) && Last(Last(v)) == Last(bvs)
  {
    var s := Last(v);
    assert ValidSeg(q, s);
    assert bvs == Flat(Front(v)) + s;
    var w := Shrink(v);
    if |s| == 1 {
      assert Front(bvs) == Flat(Front(v));
    } else {
      assert Front(w) == Front(v) && Last(w) == Front(s);
      assert Front(bvs) == Flat(Front(v)) + Front(s);
      assert ValidSeg(q, Front(s)) by {
        assert Size(s) == Size(Front(s)) + Last(s).len;
      }
    }
  }

  lemma {:induction false} GreedyStep(q: Limits, g: seq<Seg>, v: seq<Seg>, b: Bvec)
    requires Valid(q, v) && v != [] && Last(v) != [] && Last(Last(v)) == b
    requires (g == [] <==> Shrink(v) == []) && NoWorse(g, Shrink(v))
    requires g != [] && |Last(v)| > 1 ==> Last(g) != [] && Last(Last(g)) == Last(Front(Last(v)))
    ensures NoWorse(Extend(q, g, b), v)
  {
    var s := Last(v);
    assert ValidSeg(q, s);
    assert s == Front(s) + [b];
    assert Size(s) == Size(Front(s)) + b.len;
    var w := Extend(q, g, b);
    assert Size([b]) == b.len by { assert [b][..0] == []; }
    if |s| > 1 {
      assert Join(q, s[|s| - 2], s[|s| - 1]);
      if g != [] { SizeConcat(Last(g), [b]); }
    }
  }

  /** Greedy is minimal: no valid segmentation has fewer segments. */
  lemma {:induction false} GreedyMinimal(q: Limits, bvs: Seg, v: seq<Seg>)
    requires Cuts(q, v, bvs)
    ensures NoWorse(Greedy(q, bvs), v)
    ensures |Greedy(q, bvs)| <= |v|
  {
    if bvs != [] {
      ShrinkCuts(q, v, bvs);
      var p := Front(bvs);
      GreedyMinimal(q, p, Shrink(v));
      GreedyCuts(q, p);
      LastOfLast(q, Greedy(q, p), p);
      LastOfLast(q, Shrink(v), p);
      GreedyStep(q, Greedy(q, p), v, Last(bvs));
    }
  }

  lemma {:induction false} LastOfLast(q: Limits, v: seq<Seg>, bvs: Seg)
    requires Cuts(q, v, bvs)
    ensures v == [] <==> bvs == []
    ensures v != [] ==> Last(v) != [] && Last(Last(v)) == Last(bvs)
  {
    if v != [] {
      assert ValidSeg(q, Last(v));
    }
  }

  // ---------------------------------------------------------------- what a request keeps

  /** `nr` is the size of some segmentation of `bvs` whose first and last segments are no longer than
      `front` and `back`: all that nr_phys_segments and the cached sizes promise. */
  ghost predicate Counted(q: Limits, bvs: Seg, nr: nat, front: nat, back: nat) {
    exists v :: CountedBy(q, v, bvs, nr, front, back)
  }

  predicate CountedBy(q: Limits, v: seq<Seg>, bvs: Seg, nr: nat, front: nat, back: nat) {
    Cuts(q, v, bvs) && v != [] && |v| == nr && Size(v[0]) <= front && Size(Last(v)) <= back
  }

  lemma {:induction false} CountedBounds(q: Limits, bvs: Seg, nr: nat, front: nat, back: nat)
    requires Counted(q, bvs, nr, front, back)
    ensures |Greedy(q, bvs)| <= nr
  {
    var v :| CountedBy(q, v, bvs, nr, front, back);
    GreedyMinimal(q, bvs, v);
  }

  lemma {:induction false} CountedGreedy(q: Limits, bvs: Seg, front: nat, back: nat)
    requires bvs != [] && Greedy(q, bvs) != []
    requires Size(Greedy(q, bvs)[0]) <= front && Size(Last(Greedy(q, bvs))) <= back
    ensures Counted(q, bvs, |Greedy(q, bvs)|, front, back)
  {
    GreedyCuts(q, bvs);
    assert CountedBy(q, Greedy(q, bvs), bvs, |Greedy(q, bvs)|, front, back);
  }

  lemma {:induction false} CountedWider(q: Limits, bvs: Seg, nr: nat, front: nat, back: nat, front': nat, back': nat)
    requires Counted(q, bvs, nr, front, back) && front <= front' && back <= back'
    ensures Counted(q, bvs, nr, front', back')
  {
    var v :| CountedBy(q, v, bvs, nr, front, back);
    assert CountedBy(q, v, bvs, nr, front', back');
  }

  /** A bio merge starts a new segment. */
  lemma {:induction false} CountedConcat(q: Limits, a: Seg, na: nat, fa: nat, ba: nat, b: Seg, nb: nat, fb: nat, bb: nat)
    requires Counted(q, a, na, fa, ba) && Counted(q, b, nb, fb, bb)
    ensures Counted(q, a + b, na + nb, fa, bb)
  {
    var v :| CountedBy(q, v, a, na, fa, ba);
    var w :| CountedBy(q, w, b, nb, fb, bb);
    FlatConcat(v, w);
    assert CountedBy(q, v + w, a + b, na + nb, fa, bb);
  }

  lemma {:induction false} JoinSegs(q: Limits, s: Seg, t: Seg)
    requires ValidSeg(q, s) && ValidSeg(q, t) && Join(q, Last(s), t[0]) && Size(s) + Size(t) <= q.maxSegmentSize
    ensures ValidSeg(q, s + t) && Size(s + t) == Size(s) + Size(t)
  {
    SizeConcat(s, t);
    ChainedConcat(q, s, t);
  }

  /** The last segment of one segmentation joined with the first of the next. */
  function Joined(v: seq<Seg>, w: seq<Seg>): (u: seq<Seg>)
    requires v != [] && w != []
  {
    Front(v) + [Last(v) + w[0]] + w[1..]
  }

  lemma {:induction false} FlatOne(s: Seg)
    ensures Flat([s]) == s
  {
    assert Front([s]) == [];
  }

  lemma {:induction false} FlatFirst(w: seq<Seg>)
    requires w != []
    ensures Flat(w) == w[0] + Flat(w[1..])
  {
    assert w == [w[0]] + w[1..];
    FlatConcat([w[0]], w[1..]);
    FlatOne(w[0]);
  }

  lemma {:induction false} JoinedFlat(v: seq<Seg>, w: seq<Seg>)
    requires v != [] && w != []
    ensures Flat(Joined(v, w)) == Flat(v) + Flat(w)
  {
    FlatConcat(Front(v) + [Last(v) + w[0]], w[1..]);
    FlatConcat(Front(v), [Last(v) + w[0]]);
    FlatFirst(w);
    FlatOne(Last(v) + w[0]);
    assert Flat(Front(v)) + (Last(v) + w[0]) + Flat(w[1..]) == (Flat(Front(v)) + Last(v)) + (w[0] + Flat(w[1..]));
  }

  lemma {:induction false} FirstOfFirst(q: Limits, v: seq<Seg>, bvs: Seg)
    requires Cuts(q, v, bvs) && v != []
    ensures bvs != [] && v[0] != [] && v[0][0] == bvs[0]
  {
    assert ValidSeg(q, v[0]);
    FlatFirst(v);
  }

  lemma {:induction false} JoinedValid(q: Limits, v: seq<Seg>, w: seq<Seg>)
    requires v != [] && w != [] && Valid(q, v) && Valid(q, w) && ValidSeg(q, Last(v) + w[0])
    ensures Valid(q, Joined(v, w))
  {
    var u := Joined(v, w);
    forall i | 0 <= i < |u| ensures ValidSeg(q, u[i]) {
      if i < |v| - 1 {
        assert u[i] == v[i];
      } else if i >= |v| {
        assert u[i] == w[i - |v| + 1];
      }
    }
  }

  /** A request merge across contiguous ends saves one segment; the joined segment may be the new first
      or last one. */
  lemma {:induction false} CountedJoin(q: Limits, a: Seg, na: nat, fa: nat, ba: nat, b: Seg, nb: nat, fb: nat, bb: nat)
    requires Counted(q, a, na, fa, ba) && Counted(q, b, nb, fb, bb)
    requires a != [] && b != [] && Join(q, Last(a), b[0]) && ba + fb <= q.maxSegmentSize
    ensures na + nb >= 1
    ensures Counted(q, a + b, na + nb - 1, if na == 1 then ba + fb else fa, if nb == 1 then ba + fb else bb)
  {
    var v :| CountedBy(q, v, a, na, fa, ba);
    var w :| CountedBy(q, w, b, nb, fb, bb);
    LastOfLast(q, v, a);
    FirstOfFirst(q, w, b);
    assert ValidSeg(q, Last(v)) && ValidSeg(q, w[0]);
    JoinSegs(q, Last(v), w[0]);
    JoinedFlat(v, w);
    var u := Joined(v, w);
    JoinedValid(q, v, w);
    assert CountedBy(q, u, a + b, na + nb - 1, if na == 1 then ba + fb else fa, if nb == 1 then ba + fb else bb);
  }

  // ---------------------------------------------------------------- the loops

  /** A struct bio: its place on the device, what is left of its vectors, the cached segment facts,
      and REQ_NOMERGE. */
  datatype Bio = Bio(id: nat, sector: nat, vecs: seq<Bvec>, segFront: nat, segBack: nat, physSegments: nat, segValid: bool,
                     noMerge: bool)

  function Vecs(bios: seq<Bio>): (s: Seg) {
    if bios == [] then [] else Vecs(bios[..|bios| - 1]) + bios[|bios| - 1].vecs
  }

  lemma {:induction false} VecsConcat(a: seq<Bio>, b: seq<Bio>)
    ensures Vecs(a + b) == Vecs(a) + Vecs(b)
  {
    if b == [] {
      assert a + b == a;
    } else {
      var n := |b| - 1;
      assert (a + b)[..|a + b| - 1] == a + b[..n];
      VecsConcat(a, b[..n]);
    }
  }

  /** The loop variables of __blk_recalc_rq_segments. */
  datatype Scan = Scan(nr: nat, segSize: nat, prev: bool, bvprv: Bvec, front: nat)

  /** What segment count and open segment size mean after the vectors `done`. */
  predicate Scanned(q: Limits, done: Seg, nr: nat, segSize: nat) {
    nr == |Greedy(q, done)| && segSize == if nr == 0 then 0 else Size(Last(Greedy(q, done)))
  }

  /** The front size is raised once the first segment is closed. */
  predicate ScanInv(q: Limits, done: Seg, st: Scan, front0: nat) {
    && Scanned(q, done, st.nr, st.segSize)
    && st.prev == (st.nr > 0) && (st.prev ==> done != [] && st.bvprv == Last(done))
    && st.front == Max(front0, if st.nr <= 1 then 0 else Size(Greedy(q, done)[0]))
  }

  lemma {:induction false} ScanStep(q: Limits, done: Seg, nr: nat, segSize: nat, b: Bvec)
    requires Scanned(q, done, nr, segSize)
    ensures nr > 0 <==> done != []
    ensures if nr > 0 && segSize + b.len <= q.maxSegmentSize && Join(q, Last(done), b)
            then Scanned(q, done + [b], nr, segSize + b.len)
            else Scanned(q, done + [b], nr + 1, b.len)
    ensures nr > 1 ==> Greedy(q, done + [b])[0] == Greedy(q, done)[0]
    ensures nr == 1 && |Greedy(q, done + [b])| > 1 ==> Greedy(q, done + [b])[0] == Last(Greedy(q, done))
  {
    GreedyCuts(q, done);
    LastOfLast(q, Greedy(q, done), done);
    assert Front(done + [b]) == done;
    var g := Greedy(q, done);
    if nr > 0 { SizeConcat(Last(g), [b]); }
    assert Size([b]) == b.len by { assert [b][..0] == []; }
  }

  /** One turn of bio_for_each_segment in __blk_recalc_rq_segments. */
  method ScanVec(q: Limits, bv: Bvec, st: Scan, ghost done: Seg, ghost front0: nat) returns (r: Scan)
    requires ScanInv(q, done, st, front0)
    ensures ScanInv(q, done + [bv], r, front0)
  {
    ScanStep(q, done, st.nr, st.segSize, bv);
    if st.prev && q.cluster && st.segSize + bv.len <= q.maxSegmentSize
      && q.physMergeable(st.bvprv, bv) && q.segBoundary(st.bvprv, bv) {
      r := st.(segSize := st.segSize + bv.len, bvprv := bv);
    } else {
      var front := if st.nr == 1 && st.segSize > st.front then st.segSize else st.front;
      r := Scan(st.nr + 1, bv.len, true, bv, front);
    }
  }

  method ScanBio(q: Limits, vecs: seq<Bvec>, st0: Scan, ghost before: Seg, ghost front0: nat) returns (st: Scan)
    requires ScanInv(q, before, st0, front0)
    ensures ScanInv(q, before + vecs, st, front0)
  {
    st := st0;
    assert before + vecs[..0] == before;
    for j := 0 to |vecs|
      invariant ScanInv(q, before + vecs[..j], st, front0)
    {
      st := ScanVec(q, vecs[j], st, before + vecs[..j], front0);
      assert before + vecs[..j + 1] == before + vecs[..j] + [vecs[j]];
    }
    assert vecs[..|vecs|] == vecs;
  }

  /** __blk_recalc_rq_segments: counts the segments of a bio list and widens the cached sizes of its ends. */
  method RecalcSegments(q: Limits, bios: seq<Bio>) returns (nr: nat, front: nat, back: nat)
    requires bios != []
    ensures nr == |Greedy(q, Vecs(bios))|
    ensures front == Max(bios[0].segFront, if nr == 0 then 0 else Size(Greedy(q, Vecs(bios))[0]))
    ensures back == Max(bios[|bios| - 1].segBack, if nr == 0 then 0 else Size(Last(Greedy(q, Vecs(bios)))))
  {
    var st := Scan(0, 0, false, Bvec(0, 0, 0), bios[0].segFront);
    for i := 0 to |bios|
      invariant ScanInv(q, Vecs(bios[..i]), st, bios[0].segFront)
    {
      st := ScanBio(q, bios[i].vecs, st, Vecs(bios[..i]), bios[0].segFront);
      assert bios[..i + 1][..i] == bios[..i];
    }
    assert bios[..|bios|] == bios;
    nr := st.nr;
    front := if st.nr == 1 && st.segSize > st.front then st.segSize else st.front;
    back := Max(bios[|bios| - 1].segBack, st.segSize);
  }

  /** An entry of a scatterlist. */
  datatype Sg = Sg(page: nat, offset: nat, length: nat)

  /** The entry that describes one segment: where it starts and its total length. */
  function SgOf(s: Seg): Sg {
    if s == [] then Sg(0, 0, 0) else Sg(s[0].page, s[0].offset, Size(s))
  }

  function SgList(v: seq<Seg>): (sg: seq<Sg>)
    ensures |sg| == |v|
  {
    if v == [] then [] else SgList(Front(v)) + [SgOf(Last(v))]
  }

  lemma {:induction false} SgListSnoc(g: seq<Seg>, s: Seg)
    ensures SgList(g + [s]) == SgList(g) + [SgOf(s)]
  {
    assert Front(g + [s]) == g;
  }

  lemma {:induction false} SgExtend(q: Limits, g: seq<Seg>, b: Bvec)
    requires g != [] ==> Last(g) != []
    ensures SgList(Extend(q, g, b)) ==
      if g != [] && Fits(q, Last(g), b)
      then SgList(Front(g)) + [SgOf(Last(g)).(length := Size(Last(g)) + b.len)]
      else SgList(g) + [Sg(b.page, b.offset, b.len)]
  {
    if g != [] && Fits(q, Last(g), b) {
      var s := Last(g) + [b];
      assert Front(s) == Last(g);
      SgListSnoc(Front(g), s);
    } else {
      assert Size([b]) == b.len by { assert [b][..0] == []; }
      SgListSnoc(g, [b]);
    }
  }

  /** The scatterlist so far describes the greedy segments so far. */
  ghost predicate MapInv(q: Limits, done: Seg, sg: seq<Sg>, bvprv: Bvec) {
    sg == SgList(Greedy(q, done)) && (done != [] ==> bvprv == Last(done))
  }

  /** __blk_segment_map_sg. */
  method MapVec(q: Limits, bv: Bvec, sg: seq<Sg>, bvprv: Bvec, ghost done: Seg) returns (r: seq<Sg>)
    requires MapInv(q, done, sg, bvprv)
    ensures MapInv(q, done + [bv], r, bv)
  {
    ghost var g := Greedy(q, done);
    GreedyCuts(q, done);
    LastOfLast(q, g, done);
    SgExtend(q, g, bv);
    assert Front(done + [bv]) == done;
    if sg != [] && q.cluster && sg[|sg| - 1].length + bv.len <= q.maxSegmentSize
      && q.physMergeable(bvprv, bv) && q.segBoundary(bvprv, bv) {
      var last := sg[|sg| - 1];
      r := sg[..|sg| - 1] + [last.(length := last.length + bv.len)];
    } else {
      r := sg + [Sg(bv.page, bv.offset, bv.len)];
    }
  }

  method MapBio(q: Limits, vecs: seq<Bvec>, sg0: seq<Sg>, bvprv0: Bvec, ghost before: Seg) returns (sg: seq<Sg>, bvprv: Bvec)
    requires MapInv(q, before, sg0, bvprv0)
    ensures MapInv(q, before + vecs, sg, bvprv)
  {
    sg, bvprv := sg0, bvprv0;
    ghost var done := before;
    for j := 0 to |vecs|
      invariant done == before + vecs[..j]
      invariant MapInv(q, done, sg, bvprv)
    {
      sg := MapVec(q, vecs[j], sg, bvprv, done);
      bvprv := vecs[j];
      done := done + [bvprv];
    }
    assert done == before + vecs;
  }

  /** __blk_bios_map_sg: one entry per greedy segment. */
  method MapSg(q: Limits, bios: seq<Bio>) returns (sg: seq<Sg>)
    ensures sg == SgList(Greedy(q, Vecs(bios)))
  {
    sg := [];
    var bvprv := Bvec(0, 0, 0);
    for i := 0 to |bios|
      invariant MapInv(q, Vecs(bios[..i]), sg, bvprv)
    {
      sg, bvprv := MapBio(q, bios[i].vecs, sg, bvprv, Vecs(bios[..i]));
      assert bios[..i + 1][..i] == bios[..i];
    }
    assert bios[..|bios|] == bios;
  }
}
