/** Splitting bios to the limits of a queue: blk_bio_segment_split and blk_queue_split of
    block/blk-merge.c, bio_split of block/bio.c.
 */
module BioSplit {
  import opened Common
  import opened Segments
  import opened Requests

  const BIO_MAX_PAGES: nat := 256

  // ---------------------------------------------------------------- bytes

  /** The memory a list of vectors covers, byte by byte. */
  function Bytes(vs: Seg): (b: seq<(nat, nat)>)
    ensures |b| == Size(vs)
  {
    if vs == [] then [] else Bytes(Front(vs)) + VecBytes(Last(vs))
  }

  function VecBytes(v: Bvec): (b: seq<(nat, nat)>)
    ensures |b| == v.len
  {
    seq(v.len, i requires 0 <= i => (v.page, v.offset + i))
  }

  lemma Assoc<T>(a: seq<T>, b: seq<T>, c: seq<T>)
    ensures (a + b) + c == a + (b + c)
  {
  }

  lemma VecSplit(v: Bvec, n: nat)
    requires n <= v.len
    ensures VecBytes(v.(len := n)) == VecBytes(v)[..n]
    ensures VecBytes(Bvec(v.page, v.offset + n, v.len - n)) == VecBytes(v)[n..]
  {
  }

  lemma {:induction false} BytesConcat(a: Seg, b: Seg)
    ensures Bytes(a + b) == Bytes(a) + Bytes(b)
  {
    if b == [] {
      assert a + b == a && Bytes(a) + [] == Bytes(a);
    } else {
      assert Front(a + b) == a + Front(b) && Last(a + b) == Last(b);
      BytesConcat(a, Front(b));
      Assoc(Bytes(a), Bytes(Front(b)), VecBytes(Last(b)));
      assert Bytes(a + b) == Bytes(a + Front(b)) + VecBytes(Last(b));
    }
  }

  lemma {:induction false} BytesFirst(vs: Seg)
    requires vs != []
    ensures Bytes(vs) == VecBytes(vs[0]) + Bytes(vs[1..])
  {
    assert vs == [vs[0]] + vs[1..];
    BytesCons(vs[0], vs[1..]);
  }

  lemma {:induction false} BytesCons(v: Bvec, rest: Seg)
    ensures Bytes([v]) == VecBytes(v) && Bytes([v] + rest) == VecBytes(v) + Bytes(rest)
  {
    BytesConcat([v], rest);
    assert Front([v]) == [] && Bytes([]) + VecBytes(v) == VecBytes(v);
  }

  /** The vectors of the first `n` bytes: what the split-off bio keeps. */
  function TakeBytes(vs: Seg, n: nat): (r: Seg)
    decreases |vs|
  {
    if n == 0 || vs == [] then []
    else if n < vs[0].len then [vs[0].(len := n)]
    else [vs[0]] + TakeBytes(vs[1..], n - vs[0].len)
  }

  lemma SplitFirst(vs: Seg, n: nat)
    requires vs != [] && 0 < n < vs[0].len
    ensures Bytes(TakeBytes(vs, n)) == VecBytes(vs[0])[..n]
    ensures Bytes(DropBytes(vs, n)) == VecBytes(vs[0])[n..] + Bytes(vs[1..])
  {
    CutBytes(vs[0], n, vs[1..]);
  }

  lemma {:induction false} CutBytes(v: Bvec, n: nat, rest: Seg)
    requires n <= v.len
    ensures Bytes([v.(len := n)]) == VecBytes(v)[..n]
    ensures Bytes([Bvec(v.page, v.offset + n, v.len - n)] + rest) == VecBytes(v)[n..] + Bytes(rest)
  {
    VecSplit(v, n);
    BytesCons(v.(len := n), []);
    BytesCons(Bvec(v.page, v.offset + n, v.len - n), rest);
  }

  lemma TakeDrop<T>(a: seq<T>, b: seq<T>, n: nat)
    requires n <= |a| + |b|
    ensures n <= |a| ==> (a + b)[..n] == a[..n] && (a + b)[n..] == a[n..] + b
    ensures n >= |a| ==> (a + b)[..n] == a + b[..n - |a|] && (a + b)[n..] == b[n - |a|..]
  {
  }

  /** bio_split neither loses, nor repeats, nor moves a byte. */
  lemma {:induction false} SplitBytes(vs: Seg, n: nat)
    requires n <= Size(vs)
    ensures Bytes(TakeBytes(vs, n)) == Bytes(vs)[..n]
    ensures Bytes(DropBytes(vs, n)) == Bytes(vs)[n..]
  {
    if n != 0 && vs != [] {
      SizeFirst(vs);
      BytesFirst(vs);
      TakeDrop(VecBytes(vs[0]), Bytes(vs[1..]), n);
      if n < vs[0].len {
        SplitFirst(vs, n);
      } else {
        SplitBytes(vs[1..], n - vs[0].len);
        BytesFirst([vs[0]] + TakeBytes(vs[1..], n - vs[0].len));
      }
    }
  }

  /** A cut inside vector `i`, or just before it. */
  lemma {:induction false} TakeAt(vs: Seg, i: nat, k: nat)
    requires i < |vs| && k < vs[i].len && Positive(vs)
    ensures TakeBytes(vs, Size(vs[..i]) + k) == vs[..i] + if k == 0 then [] else [vs[i].(len := k)]
  {
    if i == 0 {
      assert vs[..0] == [];
    } else {
      assert vs[..i] == [vs[0]] + vs[1..][..i - 1];
      SizeFirst(vs[..i]);
      TakeAt(vs[1..], i - 1, k);
      assert vs[..i][1..] == vs[1..][..i - 1];
    }
  }

  // ---------------------------------------------------------------- blk_bio_segment_split

  /** Limits of a queue: those of Segments, bvec_gap_to_prev, and get_max_io_size by start sector. */
  datatype Queue = Queue(lim: Limits, gap: (Bvec, nat) -> bool, maxIo: nat -> nat)

  /** No vector leaves a gap to the one before it. */
  predicate NoGaps(q: Queue, vs: Seg) {
    |vs| < 2 || (NoGaps(q, Front(vs)) && !q.gap(vs[|vs| - 2], vs[|vs| - 1].offset))
  }

  /** What the hardware and bio_clone can take in one bio. */
  predicate WithinLimits(q: Queue, maxSectors: nat, vs: Seg, nsegs: nat) {
    && |vs| <= BIO_MAX_PAGES
    && |Greedy(q.lim, vs)| <= nsegs <= q.lim.maxSegments
    && (if maxSectors == 0 then |vs| <= 1 else Sectors(Size(vs)) <= maxSectors)
    && NoGaps(q, vs)
  }

  /** The loop variables: segments, sectors, the open segment, the front size. */
  datatype Cursor = Cursor(nsegs: nat, sectors: nat, segSize: nat, front: nat)

  predicate CursorInv(q: Queue, maxSectors: nat, front0: nat, done: Seg, c: Cursor) {
    && WithinLimits(q, maxSectors, done, c.nsegs)
    && Scanned(q.lim, done, c.nsegs, c.segSize)
    && c.sectors == Sectors(Size(done))
    && c.front == Max(front0, if c.nsegs == 0 then 0 else Size(Greedy(q.lim, done)[0]))
  }

  datatype Step = Grew(c: Cursor) | Cut(nsegs: nat, sectors: nat)

  /** One turn of the loop, from the sector check on; the gap and page checks come first. */
  function Visit(q: Queue, maxSectors: nat, first: bool, prev: Bvec, bv: Bvec, c: Cursor): (s: Step) {
    if c.sectors + Sectors(bv.len) > maxSectors && c.nsegs < q.lim.maxSegments && c.sectors < maxSectors
    then Cut(c.nsegs + 1, maxSectors)
    else if c.sectors + Sectors(bv.len) > maxSectors && c.sectors > 0 then Cut(c.nsegs, c.sectors)
    else if !first && c.segSize + bv.len <= q.lim.maxSegmentSize && Join(q.lim, prev, bv) then
      var size := c.segSize + bv.len;
      Grew(Cursor(c.nsegs, c.sectors + Sectors(bv.len), size, if c.nsegs == 1 then Max(c.front, size) else c.front))
    else if c.nsegs == q.lim.maxSegments then Cut(c.nsegs, c.sectors)
    else Grew(Cursor(c.nsegs + 1, c.sectors + Sectors(bv.len), bv.len, if c.nsegs == 0 then Max(c.front, bv.len) else c.front))
  }

  lemma SectorsAdd(m: nat, n: nat)
    requires Aligned(m)
    ensures Sectors(m + n) == Sectors(m) + Sectors(n)
  {
  }

  lemma GreedyFront(q: Limits, done: Seg, nr: nat, segSize: nat, b: Bvec)
    requires Scanned(q, done, nr, segSize)
    ensures var g := Greedy(q, done + [b]);
      && g != []
      && (nr == 0 ==> Size(g[0]) == b.len)
      && (nr == 1 && |g| == 1 ==> Size(g[0]) == segSize + b.len)
      && (nr == 1 && |g| > 1 ==> Size(g[0]) == segSize)
      && (nr > 1 ==> g[0] == Greedy(q, done)[0])
  {
    ScanStep(q, done, nr, segSize, b);
  }

  lemma GrowKeeps(q: Queue, maxSectors: nat, front0: nat, done: Seg, c: Cursor, bv: Bvec)
    requires CursorInv(q, maxSectors, front0, done, c) && WholeSectors(done) && bv.len > 0 && Aligned(bv.len)
    requires |done| < BIO_MAX_PAGES && (done != [] ==> !q.gap(Last(done), bv.offset))
    requires Visit(q, maxSectors, done == [], if done == [] then bv else Last(done), bv, c).Grew?
    ensures CursorInv(q, maxSectors, front0, done + [bv], Visit(q, maxSectors, done == [], if done == [] then bv else Last(done), bv, c).c)
  {
    ScanStep(q.lim, done, c.nsegs, c.segSize, bv);
    GreedyFront(q.lim, done, c.nsegs, c.segSize, bv);
    SizeWhole(done);
    SectorsAdd(Size(done), bv.len);
    assert Front(done + [bv]) == done;
  }

  /** A cut is inside the bio, and what it splits off is within the limits. */
  predicate GoodCut(q: Queue, maxSectors: nat, vecs: Seg, nsegs: nat, sectors: nat) {
    && 0 < sectors < Sectors(Size(vecs))
    && WithinLimits(q, maxSectors, TakeBytes(vecs, 512 * sectors), nsegs)
  }

  lemma AlignedSectors(m: nat)
    requires Aligned(m)
    ensures 512 * Sectors(m) == m && (m > 0 ==> Sectors(m) > 0)
  {
  }

  lemma PrefixSectors(a: Seg, b: Seg)
    requires WholeSectors(a) && WholeSectors(b)
    ensures 512 * Sectors(Size(a)) == Size(a) && Sectors(Size(a + b)) == Sectors(Size(a)) + Sectors(Size(b))
    ensures a != [] ==> Sectors(Size(a)) > 0
  {
    SizeWhole(a);
    SizeConcat(a, b);
    AlignedSectors(Size(a));
    SectorsAdd(Size(a), Size(b));
  }

  /** Cutting before vector `i`. */
  lemma CutBefore(q: Queue, maxSectors: nat, front0: nat, vecs: Seg, i: nat, c: Cursor)
    requires WholeSectors(vecs) && 0 < i < |vecs| && CursorInv(q, maxSectors, front0, vecs[..i], c)
    ensures GoodCut(q, maxSectors, vecs, c.nsegs, c.sectors)
  {
    CutBetween(vecs, i);
    TakeAt(vecs, i, 0);
    assert TakeBytes(vecs, 512 * c.sectors) == vecs[..i];
  }

  lemma CutBetween(vecs: Seg, i: nat)
    requires WholeSectors(vecs) && 0 < i < |vecs|
    ensures 512 * Sectors(Size(vecs[..i])) == Size(vecs[..i]) && 0 < Sectors(Size(vecs[..i])) < Sectors(Size(vecs))
  {
    PrefixSectors(vecs[..i], vecs[i..]);
    PrefixSectors(vecs[i..], []);
    assert vecs == vecs[..i] + vecs[i..];
  }

  /** Cutting inside vector `i`, at exactly max_sectors. */
  lemma CutInside(q: Queue, maxSectors: nat, front0: nat, vecs: Seg, i: nat, c: Cursor)
    requires WholeSectors(vecs) && i < |vecs| && CursorInv(q, maxSectors, front0, vecs[..i], c)
    requires c.sectors < maxSectors < c.sectors + Sectors(vecs[i].len) && c.nsegs < q.lim.maxSegments
    requires i < BIO_MAX_PAGES && (i > 0 ==> !q.gap(vecs[i - 1], vecs[i].offset))
    ensures GoodCut(q, maxSectors, vecs, c.nsegs + 1, maxSectors)
  {
    var done := vecs[..i];
    var k := 512 * (maxSectors - c.sectors);
    SizeWhole(done);
    TakeAt(vecs, i, k);
    InsideSize(vecs, i);
    var bv := vecs[i].(len := k);
    var piece := done + [bv];
    assert Front(piece) == done && Last(piece) == bv;
    assert Size(piece) == Size(done) + k == 512 * maxSectors;
    assert i > 0 ==> piece[|piece| - 2] == vecs[i - 1];
  }

  lemma Around<T>(s: seq<T>, i: nat)
    requires i < |s|
    ensures s == s[..i] + ([s[i]] + s[i + 1..])
  {
  }

  lemma InsideSize(vecs: Seg, i: nat)
    requires WholeSectors(vecs) && i < |vecs|
    ensures Sectors(Size(vecs)) >= Sectors(Size(vecs[..i])) + Sectors(vecs[i].len)
  {
    Around(vecs, i);
    AroundSize(vecs[..i], vecs[i], vecs[i + 1..]);
  }

  lemma AroundSize(a: Seg, v: Bvec, b: Seg)
    requires WholeSectors(a) && Aligned(v.len)
    ensures Sectors(Size(a + ([v] + b))) >= Sectors(Size(a)) + Sectors(v.len)
  {
    SizeConcat(a, [v] + b);
    SizeConcat([v], b);
    SizeWhole(a);
    assert Front([v]) == [] && Last([v]) == v;
    assert Size([v]) == v.len;
    SectorsAdd(Size(a), v.len + Size(b));
    SectorsAdd(v.len, Size(b));
  }

  /** Every cut Visit makes is good. */
  lemma VisitCuts(q: Queue, maxSectors: nat, front0: nat, vecs: Seg, i: nat, c: Cursor, prev: Bvec)
    requires WholeSectors(vecs) && i < |vecs| && CursorInv(q, maxSectors, front0, vecs[..i], c)
    requires i < BIO_MAX_PAGES && (i > 0 ==> !q.gap(vecs[i - 1], vecs[i].offset)) && q.lim.maxSegments > 0
    requires Visit(q, maxSectors, i == 0, prev, vecs[i], c).Cut? && (c.sectors > 0 ==> i > 0)
    ensures var s := Visit(q, maxSectors, i == 0, prev, vecs[i], c); GoodCut(q, maxSectors, vecs, s.nsegs, s.sectors)
  {
    if c.sectors + Sectors(vecs[i].len) > maxSectors && c.nsegs < q.lim.maxSegments && c.sectors < maxSectors {
      CutInside(q, maxSectors, front0, vecs, i, c);
    } else {
      CutBefore(q, maxSectors, front0, vecs, i, c);
    }
  }

  lemma Grows(q: Queue, maxSectors: nat, front0: nat, vecs: Seg, i: nat, c: Cursor)
    requires WholeSectors(vecs) && i < |vecs| && CursorInv(q, maxSectors, front0, vecs[..i], c)
    requires i < BIO_MAX_PAGES && (i > 0 ==> !q.gap(vecs[i - 1], vecs[i].offset))
    requires Visit(q, maxSectors, i == 0, if i == 0 then vecs[i] else vecs[i - 1], vecs[i], c).Grew?
    ensures CursorInv(q, maxSectors, front0, vecs[..i + 1], Visit(q, maxSectors, i == 0, if i == 0 then vecs[i] else vecs[i - 1], vecs[i], c).c)
  {
    GrowKeeps(q, maxSectors, front0, vecs[..i], c, vecs[i]);
    TakeMore(vecs, i);
  }

  lemma TakeMore<T>(s: seq<T>, i: nat)
    requires i < |s|
    ensures s[..i + 1] == s[..i] + [s[i]]
  {
  }

  /** The counts of a bio left whole are exact. */
  predicate Uncut(q: Queue, bio: Bio, nsegs: nat, front: nat, back: nat) {
    var segs := Greedy(q.lim, bio.vecs);
    && WithinLimits(q, q.maxIo(bio.sector), bio.vecs, nsegs) && nsegs == |segs| > 0
    && front == Max(bio.segFront, Size(segs[0])) && back == Max(bio.segBack, Size(Last(segs)))
  }

  lemma Uncuts(q: Queue, bio: Bio, c: Cursor)
    requires Whole(bio.vecs) && CursorInv(q, q.maxIo(bio.sector), bio.segFront, bio.vecs[..|bio.vecs|], c)
    ensures Uncut(q, bio, c.nsegs, c.front, Max(bio.segBack, c.segSize))
  {
    assert bio.vecs[..|bio.vecs|] == bio.vecs;
    GreedyCuts(q.lim, bio.vecs);
  }

  /** A cut in or just before vector `i`: the sizes recorded are those of the whole vectors before it, so a
      part of vector `i` that is cut off counts as a segment but not in the sizes. */
  predicate CutAt(q: Queue, bio: Bio, i: nat, sectors: nat, nsegs: nat, front: nat, back: nat) {
    i < |bio.vecs| &&
    var done := bio.vecs[..i];
    var g := Greedy(q.lim, done);
    && Size(done) <= 512 * sectors < Size(done) + bio.vecs[i].len
    && nsegs == |g| + (if 512 * sectors == Size(done) then 0 else 1)
    && front == Max(bio.segFront, if g == [] then 0 else Size(g[0]))
    && back == if g == [] then 0 else Size(Last(g))
  }

  lemma BeforeIsCutAt(q: Queue, maxSectors: nat, bio: Bio, i: nat, c: Cursor)
    requires WholeSectors(bio.vecs) && i < |bio.vecs| && CursorInv(q, maxSectors, bio.segFront, bio.vecs[..i], c)
    ensures CutAt(q, bio, i, c.sectors, c.nsegs, c.front, c.segSize)
  {
    SizeWhole(bio.vecs[..i]);
    AlignedSectors(Size(bio.vecs[..i]));
  }

  lemma VisitIsCutAt(q: Queue, maxSectors: nat, bio: Bio, i: nat, c: Cursor, prev: Bvec)
    requires WholeSectors(bio.vecs) && i < |bio.vecs| && CursorInv(q, maxSectors, bio.segFront, bio.vecs[..i], c)
    requires Visit(q, maxSectors, i == 0, prev, bio.vecs[i], c).Cut?
    ensures var s := Visit(q, maxSectors, i == 0, prev, bio.vecs[i], c);
      CutAt(q, bio, i, s.sectors, s.nsegs, c.front, c.segSize)
  {
    BeforeIsCutAt(q, maxSectors, bio, i, c);
    SizeWhole(bio.vecs[..i]);
    AlignedSectors(Size(bio.vecs[..i]));
    AlignedSectors(bio.vecs[i].len);
  }

  /** Whether the first `n` vectors can go in one bio. */
  predicate Takes(q: Queue, maxSectors: nat, vecs: Seg, n: nat)
    requires n <= |vecs|
  {
    WithinLimits(q, maxSectors, vecs[..n], |Greedy(q.lim, vecs[..n])|)
  }

  /** A part of vector `i` can still be taken, up to exactly `maxSectors`. */
  predicate Divides(q: Queue, maxSectors: nat, vecs: Seg, i: nat)
    requires i < |vecs|
  {
    && i < BIO_MAX_PAGES && (i > 0 ==> !q.gap(vecs[i - 1], vecs[i].offset))
    && |Greedy(q.lim, vecs[..i])| < q.lim.maxSegments
    && Sectors(Size(vecs[..i])) < maxSectors < Sectors(Size(vecs[..i])) + Sectors(vecs[i].len)
  }

  /** The cut is as late as can be: in the first vector that cannot be taken whole if a part of it can, or just
      before it. */
  predicate Latest(q: Queue, maxSectors: nat, vecs: Seg, i: nat, sectors: nat) {
    && i < |vecs| && Takes(q, maxSectors, vecs, i) && !Takes(q, maxSectors, vecs, i + 1)
    && sectors == if Divides(q, maxSectors, vecs, i) then maxSectors else Sectors(Size(vecs[..i]))
  }

  lemma {:induction false} FewerSegments(q: Limits, vs: Seg, n: nat)
    requires n <= |vs|
    ensures |Greedy(q, vs[..n])| <= |Greedy(q, vs)|
  {
    if n < |vs| {
      FewerSegments(q, Front(vs), n);
      assert Front(vs)[..n] == vs[..n];
    } else {
      assert vs[..n] == vs;
    }
  }

  lemma {:induction false} FewerGaps(q: Queue, vs: Seg, n: nat)
    requires n <= |vs| && NoGaps(q, vs)
    ensures NoGaps(q, vs[..n])
  {
    if n < |vs| {
      if |vs| >= 2 {
        FewerGaps(q, Front(vs), n);
        assert Front(vs)[..n] == vs[..n];
      }
    } else {
      assert vs[..n] == vs;
    }
  }

  /** If all vectors can go in one bio, so can the first ones. */
  lemma PrefixTakes(q: Queue, maxSectors: nat, vecs: Seg, n: nat)
    requires n <= |vecs| && Takes(q, maxSectors, vecs, |vecs|)
    ensures Takes(q, maxSectors, vecs, n)
  {
    assert vecs[..|vecs|] == vecs;
    FewerSegments(q.lim, vecs, n);
    FewerGaps(q, vecs, n);
    assert vecs == vecs[..n] + vecs[n..];
    SizeConcat(vecs[..n], vecs[n..]);
    SectorsMonotone(Size(vecs[..n]), Size(vecs));
  }

  lemma SectorsMonotone(m: nat, n: nat)
    requires m <= n
    ensures Sectors(m) <= Sectors(n)
  {
  }

  lemma LatestMeansCut(q: Queue, maxSectors: nat, vecs: Seg, i: nat, sectors: nat)
    requires Latest(q, maxSectors, vecs, i, sectors)
    ensures !Takes(q, maxSectors, vecs, |vecs|)
  {
    if Takes(q, maxSectors, vecs, |vecs|) {
      PrefixTakes(q, maxSectors, vecs, i + 1);
    }
  }

  /** The checks before Visit. */
  lemma BeforeLatest(q: Queue, maxSectors: nat, front0: nat, vecs: Seg, i: nat, c: Cursor)
    requires WholeSectors(vecs) && i < |vecs| && CursorInv(q, maxSectors, front0, vecs[..i], c)
    requires i >= BIO_MAX_PAGES || (i > 0 && q.gap(vecs[i - 1], vecs[i].offset))
    ensures Latest(q, maxSectors, vecs, i, c.sectors)
  {
    var more := vecs[..i + 1];
    assert |more| > 1 ==> more[|more| - 2] == vecs[i - 1];
  }

  lemma VisitLatest(q: Queue, maxSectors: nat, front0: nat, vecs: Seg, i: nat, c: Cursor)
    requires WholeSectors(vecs) && i < |vecs| && CursorInv(q, maxSectors, front0, vecs[..i], c)
    requires i < BIO_MAX_PAGES && (i > 0 ==> !q.gap(vecs[i - 1], vecs[i].offset)) && q.lim.maxSegments > 0
    requires Visit(q, maxSectors, i == 0, if i == 0 then vecs[i] else vecs[i - 1], vecs[i], c).Cut?
    ensures Latest(q, maxSectors, vecs, i, Visit(q, maxSectors, i == 0, if i == 0 then vecs[i] else vecs[i - 1], vecs[i], c).sectors)
  {
    TakeMore(vecs, i);
    ScanStep(q.lim, vecs[..i], c.nsegs, c.segSize, vecs[i]);
    OneMore(vecs, i);
  }

  lemma OneMore(vecs: Seg, i: nat)
    requires WholeSectors(vecs) && i < |vecs|
    ensures Sectors(Size(vecs[..i + 1])) == Sectors(Size(vecs[..i])) + Sectors(vecs[i].len)
  {
    TakeMore(vecs, i);
    SizeWhole(vecs[..i]);
    SizeConcat(vecs[..i], [vecs[i]]);
    assert Size([vecs[i]]) == vecs[i].len by { assert Front([vecs[i]]) == []; }
    SectorsAdd(Size(vecs[..i]), vecs[i].len);
  }

  /** A vector put on its own after the greedy segments is a segmentation. */
  lemma OneMoreSegment(q: Limits, done: Seg, b: Bvec)
    ensures Cuts(q, Greedy(q, done) + [[b]], done + [b])
  {
    var g := Greedy(q, done);
    GreedyCuts(q, done);
    FlatConcat(g, [[b]]);
    FlatOne([b]);
    assert ValidSeg(q, [b]);
  }

  lemma InsideCaches(q: Limits, done: Seg, b: Bvec, front: nat, back: nat)
    requires var g := Greedy(q, done); front >= (if g == [] then 0 else Size(g[0])) && back == if g == [] then 0 else Size(Last(g))
    requires b.len > 0
    ensures Counted(q, done + [b], |Greedy(q, done)| + 1, front, back) <==> b.len <= back
  {
    var g, piece := Greedy(q, done), done + [b];
    if b.len <= back {
      var v := g + [[b]];
      OneMoreSegment(q, done, b);
      assert Front([b]) == [] && Size([b]) == b.len;
      assert CountedBy(q, v, piece, |g| + 1, front, back);
    }
    if Counted(q, piece, |g| + 1, front, back) {
      var v :| CountedBy(q, v, piece, |g| + 1, front, back);
      LastOfLast(q, v, piece);
    }
  }

  /** The cached facts of a piece cut off can be relied on if and only if the part it has of the vector that
      was cut is no longer than the last segment before it; so always when no vector was cut. */
  lemma CutCaches(q: Queue, bio: Bio, i: nat, sectors: nat, nsegs: nat, front: nat, back: nat)
    requires Whole(bio.vecs) && sectors > 0 && CutAt(q, bio, i, sectors, nsegs, front, back)
    ensures Counted(q.lim, TakeBytes(bio.vecs, 512 * sectors), nsegs, front, back)
       <==> 512 * sectors - Size(bio.vecs[..i]) <= back
  {
    var done := bio.vecs[..i];
    var k := 512 * sectors - Size(done);
    TakeAt(bio.vecs, i, k);
    PieceCounted(q.lim, done, k, bio.vecs[i], TakeBytes(bio.vecs, 512 * sectors), nsegs, front, back);
  }

  lemma PieceCounted(q: Limits, done: Seg, k: nat, b: Bvec, piece: Seg, nsegs: nat, front: nat, back: nat)
    requires piece == done + (if k == 0 then [] else [b.(len := k)]) && (k == 0 ==> Size(done) > 0)
    requires var g := Greedy(q, done); front >= (if g == [] then 0 else Size(g[0])) && back == if g == [] then 0 else Size(Last(g))
    requires nsegs == |Greedy(q, done)| + (if k == 0 then 0 else 1)
    ensures Counted(q, piece, nsegs, front, back) <==> k <= back
  {
    if k == 0 {
      assert piece == done;
      GreedyCuts(q, done);
      CountedGreedy(q, done, front, back);
    } else {
      InsideCaches(q, done, b.(len := k), front, back);
    }
  }

  /** One vector of 8192 bytes, at most 8 sectors, nothing cached yet: the 4096 bytes cut off are recorded as
      one segment with sizes 0 and 0. */
  lemma CutCanMisreport(q: Queue)
    requires q.maxIo(0) == 8 && q.lim.maxSegments > 0
    ensures var bio := Bio(0, 0, [Bvec(0, 0, 8192)], 0, 0, 0, false, false);
      && Visit(q, q.maxIo(0), true, bio.vecs[0], bio.vecs[0], Cursor(0, 0, 0, 0)) == Cut(1, 8)
      && CutAt(q, bio, 0, 8, 1, 0, 0)
      && !Counted(q.lim, TakeBytes(bio.vecs, 512 * 8), 1, 0, 0)
  {
    var bio := Bio(0, 0, [Bvec(0, 0, 8192)], 0, 0, 0, false, false);
    assert bio.vecs[..0] == [];
    CutCaches(q, bio, 0, 8, 1, 0, 0);
  }

  /** blk_bio_segment_split, up to bio_split: where to cut, if at all, with the segment count and the
      cached sizes of what is kept; `at` is the vector cut, or the one cut before. */
  method SegmentSplit(q: Queue, bio: Bio) returns (cut: Option<nat>, nsegs: nat, front: nat, back: nat, ghost at: nat)
    requires Whole(bio.vecs) && q.lim.maxSegments > 0
    ensures cut.Some? ==> GoodCut(q, q.maxIo(bio.sector), bio.vecs, nsegs, cut.value)
    ensures cut.Some? ==> CutAt(q, bio, at, cut.value, nsegs, front, back)
    ensures cut.None? ==> Uncut(q, bio, nsegs, front, back)
    ensures cut.Some? ==> Latest(q, q.maxIo(bio.sector), bio.vecs, at, cut.value)
    ensures cut.None? <==> Takes(q, q.maxIo(bio.sector), bio.vecs, |bio.vecs|)
  {
    var vecs := bio.vecs;
    var maxSectors := q.maxIo(bio.sector);
    var c := Cursor(0, 0, 0, bio.segFront);
    var i := 0;
    cut := None;
    nsegs, front, back, at := 0, bio.segFront, bio.segBack, 0;
    assert vecs[..0] == [];
    while i < |vecs|
      invariant 0 <= i <= |vecs| && cut.None?
      invariant CursorInv(q, maxSectors, bio.segFront, vecs[..i], c)
    {
      var bv := vecs[i];
      var prev := if i == 0 then bv else vecs[i - 1];
      if i >= BIO_MAX_PAGES || (i > 0 && q.gap(prev, bv.offset)) {
        CutBefore(q, maxSectors, bio.segFront, vecs, i, c);
        BeforeIsCutAt(q, maxSectors, bio, i, c);
        BeforeLatest(q, maxSectors, bio.segFront, vecs, i, c);
        LatestMeansCut(q, maxSectors, vecs, i, c.sectors);
        return Some(c.sectors), c.nsegs, c.front, c.segSize, i;
      }
      var s := Visit(q, maxSectors, i == 0, prev, bv, c);
      if s.Cut? {
        VisitCuts(q, maxSectors, bio.segFront, vecs, i, c, prev);
        VisitIsCutAt(q, maxSectors, bio, i, c, prev);
        VisitLatest(q, maxSectors, bio.segFront, vecs, i, c);
        LatestMeansCut(q, maxSectors, vecs, i, s.sectors);
        return Some(s.sectors), s.nsegs, c.front, c.segSize, i;
      }
      Grows(q, maxSectors, bio.segFront, vecs, i, c);
      c := s.c;
      i := i + 1;
    }
    Uncuts(q, bio, c);
    assert vecs[..|vecs|] == vecs;
    nsegs, front, back := c.nsegs, c.front, Max(bio.segBack, c.segSize);
  }

  // ---------------------------------------------------------------- blk_queue_split

  lemma {:induction false} TakeWhole(vs: Seg, n: nat)
    requires WholeSectors(vs) && Aligned(n)
    ensures WholeSectors(TakeBytes(vs, n)) && (vs != [] && n > 0 ==> TakeBytes(vs, n) != [])
    decreases |vs|
  {
    if n != 0 && vs != [] && n >= vs[0].len {
      TakeWhole(vs[1..], n - vs[0].len);
    }
  }

  /** The bio split off the front: a clone, with an id of its own, that covers the first `sectors` sectors. */
  function SplitOff(bio: Bio, sectors: nat, id: nat): (r: Bio) {
    bio.(id := id, vecs := TakeBytes(bio.vecs, 512 * sectors))
  }

  function Recorded(bio: Bio, nsegs: nat, front: nat, back: nat): (r: Bio) {
    bio.(segFront := front, segBack := back, physSegments := nsegs, segValid := true)
  }

  /** A bio the driver can take as it is, and of which a request can be made. */
  ghost predicate Fits(q: Queue, b: Bio) {
    BioInv(q.lim, b) && b.segValid && WithinLimits(q, q.maxIo(b.sector), b.vecs, b.physSegments)
  }

  /** bio_split: the two halves are non-empty, consecutive, and hold the bytes of the whole in order. */
  lemma SplitConserves(bio: Bio, sectors: nat, id: nat)
    requires Whole(bio.vecs) && 0 < sectors < Sectors(BioBytes(bio))
    ensures var a, b := SplitOff(bio, sectors, id), Advanced(bio, 512 * sectors);
      && Whole(a.vecs) && Whole(b.vecs) && a.sector == bio.sector && b.sector == BioEnd(a)
      && Bytes(a.vecs) + Bytes(b.vecs) == Bytes(bio.vecs)
      && BioBytes(a) == 512 * sectors && BioBytes(a) + BioBytes(b) == BioBytes(bio)
  {
    var n := 512 * sectors;
    SizeWhole(bio.vecs);
    AlignedSectors(BioBytes(bio));
    AlignedSectors(n);
    SplitBytes(bio.vecs, n);
    TakeWhole(bio.vecs, n);
    DropWhole(bio.vecs, n);
    DropSize(bio.vecs, n);
    assert Bytes(bio.vecs) == Bytes(bio.vecs)[..n] + Bytes(bio.vecs)[n..];
  }

  /** The part of a vector that the end of a piece was cut from is its last vector. */
  lemma LastCut(bio: Bio, i: nat, sectors: nat)
    requires Whole(bio.vecs) && sectors > 0 && i < |bio.vecs|
    requires Size(bio.vecs[..i]) <= 512 * sectors < Size(bio.vecs[..i]) + bio.vecs[i].len
    ensures var (k, piece) := (512 * sectors - Size(bio.vecs[..i]), TakeBytes(bio.vecs, 512 * sectors));
      piece != [] && if k == 0 then piece == bio.vecs[..i] else Last(piece).len == k
  {
    TakeAt(bio.vecs, i, 512 * sectors - Size(bio.vecs[..i]));
    assert i == 0 ==> bio.vecs[..i] == [];
  }

  /** Said of the piece alone: its cached facts can be relied on if and only if its last vector is no longer
      than the back size recorded. */
  lemma PieceCaches(q: Queue, bio: Bio, i: nat, sectors: nat, nsegs: nat, front: nat, back: nat)
    requires Whole(bio.vecs) && sectors > 0 && CutAt(q, bio, i, sectors, nsegs, front, back)
    ensures var piece := TakeBytes(bio.vecs, 512 * sectors);
      piece != [] && (Counted(q.lim, piece, nsegs, front, back) <==> Last(piece).len <= back)
  {
    CutCaches(q, bio, i, sectors, nsegs, front, back);
    LastCut(bio, i, sectors);
    var done := bio.vecs[..i];
    if 512 * sectors == Size(done) {
      GreedyCuts(q.lim, done);
      LastOfLast(q.lim, Greedy(q.lim, done), done);
    }
  }

  /** blk_queue_split: the bio to issue now and, if it was cut, the bio to resubmit.  A piece cut off is not
      to be merged; its sizes could mislead a merge exactly when its last vector is longer than its back size. */
  method QueueSplit(q: Queue, bio: Bio, id: nat) returns (head: Bio, rest: Option<Bio>)
    requires Whole(bio.vecs) && q.lim.maxSegments > 0
    ensures Fits(q, head) && head.sector == bio.sector && head.id == if rest.Some? then id else bio.id
    ensures rest.None? ==> head.vecs == bio.vecs && head.noMerge == bio.noMerge
    ensures rest.None? ==> Counted(q.lim, head.vecs, |Greedy(q.lim, bio.vecs)|, head.segFront, head.segBack)
    ensures rest.None? ==> head.physSegments == |Greedy(q.lim, bio.vecs)|
    ensures rest.Some? ==> Whole(rest.value.vecs) && BioBytes(rest.value) < BioBytes(bio) && rest.value.sector == BioEnd(head)
    ensures rest.Some? ==> rest.value.id == bio.id
    ensures rest.Some? ==> Bytes(head.vecs) + Bytes(rest.value.vecs) == Bytes(bio.vecs) && head.noMerge
    ensures rest.Some? ==>
      (Counted(q.lim, head.vecs, head.physSegments, head.segFront, head.segBack) <==> Last(head.vecs).len <= head.segBack)
  {
    var cut, nsegs, front, back, at := SegmentSplit(q, bio);
    if cut.None? {
      CountedGreedy(q.lim, bio.vecs, front, back);
      head, rest := Recorded(bio, nsegs, front, back), None;
    } else {
      // the BUG_ONs of bio_split
      assert 0 < cut.value < Sectors(BioBytes(bio));
      SplitConserves(bio, cut.value, id);
      PieceCaches(q, bio, at, cut.value, nsegs, front, back);
      head := Recorded(SplitOff(bio, cut.value, id), nsegs, front, back).(noMerge := true);
      rest := Some(Advanced(bio, 512 * cut.value));
    }
  }

  /** blk_queue_bio as far as it makes a request: of the piece split off, whatever the cut, and it is sound. */
  method MakePiece(q: Queue, bio: Bio, id: nat) returns (r: Request, rest: Option<Bio>)
    requires Whole(bio.vecs) && q.lim.maxSegments > 0
    ensures RqInv(q.lim, r.View()) && r.nrPhysSegments <= q.lim.maxSegments
    ensures |r.bios| == 1 && r.sector == bio.sector && r.bios[0].id == if rest.Some? then id else bio.id
    ensures rest.Some? ==> r.noMerge && Bytes(r.bios[0].vecs) + Bytes(rest.value.vecs) == Bytes(bio.vecs)
    ensures rest.None? ==> r.bios[0].vecs == bio.vecs
  {
    var head;
    head, rest := QueueSplit(q, bio, id);
    AloneInv(q.lim, head);
    r := new Request(q.lim, head);
  }

  /** Consecutive pieces that start with `bio`, hold its bytes in order, and each fit. */
  ghost predicate Tiles(q: Queue, pieces: seq<Bio>, bio: Bio) {
    && pieces != [] && Contiguous(pieces) && pieces[0].sector == bio.sector
    && Bytes(Vecs(pieces)) == Bytes(bio.vecs)
    && forall i :: 0 <= i < |pieces| ==> Fits(q, pieces[i])
  }

  /** Pieces so far, with `rest` still to split. */
  ghost predicate Tiling(q: Queue, pieces: seq<Bio>, rest: Bio, bio: Bio) {
    && Contiguous(pieces) && Whole(rest.vecs)
    && Bytes(Vecs(pieces)) + Bytes(rest.vecs) == Bytes(bio.vecs)
    && (forall i :: 0 <= i < |pieces| ==> Fits(q, pieces[i]))
    && if pieces == [] then rest.sector == bio.sector
       else pieces[0].sector == bio.sector && rest.sector == BioEnd(Last(pieces))
  }

  lemma AppendedFits(q: Queue, pieces: seq<Bio>, head: Bio)
    requires (forall i :: 0 <= i < |pieces| ==> Fits(q, pieces[i])) && Fits(q, head)
    ensures forall i :: 0 <= i < |pieces + [head]| ==> Fits(q, (pieces + [head])[i])
  {
  }

  lemma AppendedFollows(pieces: seq<Bio>, head: Bio)
    requires Contiguous(pieces) && Whole(head.vecs) && (pieces != [] ==> head.sector == BioEnd(Last(pieces)))
    ensures Contiguous(pieces + [head])
  {
    assert Follows([head], 0);
    if pieces == [] {
      assert pieces + [head] == [head];
    } else {
      ContiguousConcat(pieces, [head]);
    }
  }

  lemma AppendedBytes(pieces: seq<Bio>, head: Bio)
    ensures Bytes(Vecs(pieces + [head])) == Bytes(Vecs(pieces)) + Bytes(head.vecs)
  {
    assert (pieces + [head])[..|pieces|] == pieces;
    BytesConcat(Vecs(pieces), head.vecs);
  }

  lemma Appended(q: Queue, pieces: seq<Bio>, rest: Bio, bio: Bio, head: Bio)
    requires Tiling(q, pieces, rest, bio) && Fits(q, head) && head.sector == rest.sector
    ensures Contiguous(pieces + [head]) && (pieces + [head])[0].sector == bio.sector
    ensures forall i :: 0 <= i < |pieces + [head]| ==> Fits(q, (pieces + [head])[i])
    ensures Bytes(Vecs(pieces + [head])) == Bytes(Vecs(pieces)) + Bytes(head.vecs)
  {
    AppendedFits(q, pieces, head);
    AppendedFollows(pieces, head);
    AppendedBytes(pieces, head);
  }

  lemma TilingGrows(q: Queue, pieces: seq<Bio>, rest: Bio, bio: Bio, head: Bio, more: Bio)
    requires Tiling(q, pieces, rest, bio) && Fits(q, head) && head.sector == rest.sector
    requires Whole(more.vecs) && more.sector == BioEnd(head) && Bytes(head.vecs) + Bytes(more.vecs) == Bytes(rest.vecs)
    ensures Tiling(q, pieces + [head], more, bio)
  {
    Appended(q, pieces, rest, bio, head);
    Assoc(Bytes(Vecs(pieces)), Bytes(head.vecs), Bytes(more.vecs));
  }

  lemma TilingEnds(q: Queue, pieces: seq<Bio>, rest: Bio, bio: Bio, head: Bio)
    requires Tiling(q, pieces, rest, bio) && Fits(q, head) && head.sector == rest.sector && head.vecs == rest.vecs
    ensures Tiles(q, pieces + [head], bio)
  {
    Appended(q, pieces, rest, bio, head);
  }

  /** The clones are numbered as they are allocated. */
  predicate Numbered(pieces: seq<Bio>, next: nat) {
    forall i :: 0 <= i < |pieces| ==> pieces[i].id == next + i
  }

  /** Splitting until nothing is left to split, as resubmission does: clones numbered from `next`, and the
      bio itself as the last piece. */
  method SplitAll(q: Queue, bio: Bio, next: nat) returns (pieces: seq<Bio>)
    requires Whole(bio.vecs) && q.lim.maxSegments > 0
    ensures Tiles(q, pieces, bio) && Numbered(Front(pieces), next) && Last(pieces).id == bio.id
  {
    pieces := [];
    var rest := bio;
    assert Bytes(Vecs(pieces)) + Bytes(rest.vecs) == Bytes(bio.vecs);
    while true
      invariant Tiling(q, pieces, rest, bio) && Numbered(pieces, next) && rest.id == bio.id
      decreases BioBytes(rest)
    {
      var head, more := QueueSplit(q, rest, next + |pieces|);
      if more.None? {
        TilingEnds(q, pieces, rest, bio, head);
        assert Front(pieces + [head]) == pieces;
        return pieces + [head];
      }
      TilingGrows(q, pieces, rest, bio, head, more.value);
      pieces, rest := pieces + [head], more.value;
    }
  }
}
