/** Every run of submissions, bio merges, request merges and partial completions over any number of
    requests: what each request keeps, and what becomes of each bio.
 */
module RequestRuns {
  import opened Common
  import opened Segments
  import opened Requests
  import ScatterLists

  /** The requests there are, the bios ended so far in order, and the bios taken in so far as they came. */
  datatype State = State(rqs: seq<Rq>, ended: seq<nat>, entered: seq<Bio>)

  datatype Op =
    | Submit(b: Bio)
    | Offer(i: nat, b: Bio, gap: bool)
    | Join(i: nat, j: nat, ok: bool)
    | Complete(i: nat, count: nat)

  ghost predicate AllSound(q: Limits, rqs: seq<Rq>) {
    forall i :: 0 <= i < |rqs| ==> RqInv(q, rqs[i])
  }

  /** A bio that is not in the system yet, with facts that can be relied on. */
  ghost predicate Fresh(q: Limits, s: State, b: Bio) {
    BioInv(q, b) && b.id !in Ids(s.entered)
  }

  /** init_request_from_bio. */
  function Made(q: Limits, b: Bio): Rq {
    Alone(Prepared(q, b))
  }

  lemma MadeSound(q: Limits, b: Bio)
    requires BioInv(q, b)
    ensures RqInv(q, Made(q, b))
  {
    PreparedInv(q, b);
    AloneInv(q, Prepared(q, b));
  }

  ghost function Submitted(q: Limits, s: State, b: Bio): (t: State)
    requires AllSound(q, s.rqs)
    ensures AllSound(q, t.rqs)
  {
    if !Fresh(q, s, b) then s
    else MadeSound(q, b); State(s.rqs + [Made(q, b)], s.ended, s.entered + [b])
  }

  ghost function Offered(q: Limits, s: State, i: nat, b: Bio, gap: bool): (t: State)
    requires AllSound(q, s.rqs)
    ensures AllSound(q, t.rqs)
  {
    if i >= |s.rqs| || !Fresh(q, s, b) then s
    else
      var v := Judged(q, s.rqs[i], b, gap);
      BioStepKeeps(q, s.rqs[i], b, v);
      var p := BioStep(q, s.rqs[i], b, v);
      State(s.rqs[i := p.0], s.ended, if p.1 then s.entered + [b] else s.entered)
  }

  ghost function Joined(q: Limits, s: State, i: nat, j: nat, ok: bool): (t: State)
    requires AllSound(q, s.rqs)
    ensures AllSound(q, t.rqs)
  {
    if i >= |s.rqs| || j >= |s.rqs| || i == j || s.rqs[i].bios == [] || s.rqs[j].bios == [] then s
    else
      InvJoinable(q, s.rqs[i], s.rqs[j]);
      var may := ok && Small(q, s.rqs[i], s.rqs[j]);
      PairMergedKeeps(q, s.rqs[i], s.rqs[j], may);
      var p := PairMerged(q, s.rqs[i], s.rqs[j], may);
      s.(rqs := s.rqs[i := p.0][j := p.1])
  }

  ghost function Finished(q: Limits, s: State, i: nat, n: nat): (t: State)
    requires AllSound(q, s.rqs)
    ensures AllSound(q, t.rqs)
  {
    if i >= |s.rqs| || !Aligned(n) then s
    else
      UpdateKeeps(q, s.rqs[i], n);
      s.(rqs := s.rqs[i := Updated(q, s.rqs[i], n)], ended := s.ended + Consume(s.rqs[i].bios, n).ended)
  }

  /** One operation; one that does not apply changes nothing. */
  ghost function Apply(q: Limits, s: State, op: Op): (t: State)
    requires AllSound(q, s.rqs)
    ensures AllSound(q, t.rqs)
  {
    match op
    case Submit(b) => Submitted(q, s, b)
    case Offer(i, b, gap) => Offered(q, s, i, b, gap)
    case Join(i, j, ok) => Joined(q, s, i, j, ok)
    case Complete(i, n) => Finished(q, s, i, n)
  }

  ghost function Run(q: Limits, ops: seq<Op>): (s: State)
    ensures AllSound(q, s.rqs)
  {
    if ops == [] then State([], [], []) else Apply(q, Run(q, Front(ops)), Last(ops))
  }

  /** In every run, of every request: its length, sector and bio positions agree, its first vector is within
      its length (no "request botched" repair), mapping it never takes more entries than nr_phys_segments
      announces, and while it may still be merged nr_phys_segments is the size of a segmentation whose first
      and last segments are within the cached sizes. */
  lemma EveryRequestFits(q: Limits, ops: seq<Op>, i: nat)
    requires i < |Run(q, ops).rqs|
    ensures var r := Run(q, ops).rqs[i];
      && Contiguous(r.bios) && r.dataLen == Size(Vecs(r.bios)) && (r.bios != [] ==> r.sector == r.bios[0].sector)
      && (r.bios != [] ==> |SgList(Greedy(q, Vecs(r.bios)))| <= r.nr)
      && (r.bios != [] ==> r.bios[0].vecs[0].len <= r.dataLen)
      && (r.bios != [] && !r.noMerge ==> Counted(q, Vecs(r.bios), r.nr, r.bios[0].segFront, Last(r.bios).segBack))
  {
    InvFits(q, Run(q, ops).rqs[i]);
  }

  // ---------------------------------------------------------------- merges happen

  /** A new bio offered to a request that can take it is taken in, and the request grows by it. */
  lemma OfferMerges(q: Limits, s: State, i: nat, b: Bio, gap: bool)
    requires AllSound(q, s.rqs) && i < |s.rqs| && Fresh(q, s, b) && Takes(q, s.rqs[i], b, gap)
    ensures var t := Apply(q, s, Offer(i, b, gap));
      && t.entered == s.entered + [b] && |t.rqs| == |s.rqs| && t.ended == s.ended
      && t.rqs[i].dataLen == s.rqs[i].dataLen + BioBytes(b) && t.rqs[i].sector == Start(s.rqs[i], b)
      && forall j :: 0 <= j < |s.rqs| && j != i ==> t.rqs[j] == s.rqs[j]
  {
    TakesExactly(q, s.rqs[i], b, gap);
  }

  /** A request that can absorb another one does. */
  lemma JoinMerges(q: Limits, s: State, i: nat, j: nat, ok: bool)
    requires AllSound(q, s.rqs) && i < |s.rqs| && j < |s.rqs| && i != j && Joinable(s.rqs[i], s.rqs[j])
    requires Absorbs(q, s.rqs[i], s.rqs[j], ok)
    ensures var t := Apply(q, s, Join(i, j, ok));
      && |t.rqs| == |s.rqs| && t.ended == s.ended && t.entered == s.entered
      && t.rqs[i].dataLen == s.rqs[i].dataLen + s.rqs[j].dataLen && t.rqs[j].bios == []
      && forall k :: 0 <= k < |s.rqs| && k != i && k != j ==> t.rqs[k] == s.rqs[k]
  {
    AbsorbsExactly(q, s.rqs[i], s.rqs[j], ok);
  }

  // ---------------------------------------------------------------- the segment limit

  /** A vector without its first `n` bytes. */
  function Later(a: Bvec, n: nat): Bvec
    requires n < a.len
  {
    Bvec(a.page, a.offset + n, a.len - n)
  }

  /** A vector that starts later joins what follows it as before: true of BIOVEC_PHYS_MERGEABLE, which looks
      at its end, and of BIOVEC_SEG_BOUNDARY, which asks for no boundary between its start and the end of
      the next. */
  ghost predicate Advances(q: Limits) {
    forall a: Bvec, b: Bvec, n: nat :: n < a.len && Segments.Join(q, a, b) ==> Segments.Join(q, Later(a, n), b)
  }

  /** The macros of include/linux/bio.h, with a boundary mask of window - 1. */
  ghost predicate Macros(q: Limits, base: nat -> nat, window: nat) {
    && window > 0
    && (forall a, b :: q.physMergeable(a, b) <==> ScatterLists.Phys(base, a) + a.len == ScatterLists.Phys(base, b))
    && (forall a, b :: q.segBoundary(a, b) <==> ScatterLists.Phys(base, a) / window == (ScatterLists.Phys(base, b) + b.len - 1) / window)
  }

  lemma NegativeProduct(d: int, w: int)
    requires d < 0 <= w
    ensures w * d <= -w
  {
  }

  lemma QuotientsGrow(x: int, y: int, w: nat)
    requires w > 0 && x <= y
    ensures x / w <= y / w
  {
    var (i, j) := (x / w, y / w);
    assert x == w * i + x % w && y == w * j + y % w;
    assert w * (j - i) == w * j - w * i;
    if j - i < 0 {
      NegativeProduct(j - i, w);
    }
  }

  lemma MacrosAdvance(q: Limits, base: nat -> nat, window: nat)
    requires Macros(q, base, window)
    ensures Advances(q)
  {
    forall a: Bvec, b: Bvec, n: nat | n < a.len && Segments.Join(q, a, b) ensures Segments.Join(q, Later(a, n), b) {
      var (x, y, z) := (ScatterLists.Phys(base, a), ScatterLists.Phys(base, Later(a, n)), ScatterLists.Phys(base, b) + b.len - 1);
      assert q.physMergeable(a, b) && q.segBoundary(a, b);
      QuotientsGrow(x, y, window);
      QuotientsGrow(y, z, window);
      assert q.physMergeable(Later(a, n), b) && q.segBoundary(Later(a, n), b);
    }
  }

  lemma {:induction false} ChainedTail(q: Limits, s: Seg)
    requires Chained(q, s) && s != []
    ensures Chained(q, s[1..])
  {
    if |s| > 1 {
      ChainedTail(q, Front(s));
      assert Front(s)[1..] == Front(s[1..]);
    }
  }

  lemma {:induction false} ChainedLater(q: Limits, s: Seg, n: nat)
    requires Chained(q, s) && s != [] && n < s[0].len && Advances(q)
    ensures Chained(q, s[0 := Later(s[0], n)])
  {
    if |s| > 1 {
      ChainedLater(q, Front(s), n);
      assert Front(s[0 := Later(s[0], n)]) == Front(s)[0 := Later(s[0], n)];
    }
  }

  lemma ValidLater(q: Limits, s: Seg, n: nat)
    requires ValidSeg(q, s) && n < s[0].len && Advances(q)
    ensures ValidSeg(q, s[0 := Later(s[0], n)])
  {
    ChainedLater(q, s, n);
    SizeFirst(s);
    SizeFirst(s[0 := Later(s[0], n)]);
    assert s[0 := Later(s[0], n)][1..] == s[1..];
  }

  lemma ValidTail(q: Limits, s: Seg)
    requires ValidSeg(q, s) && |s| > 1
    ensures ValidSeg(q, s[1..])
  {
    ChainedTail(q, s);
    SizeFirst(s);
  }

  /** A segmentation whose first segment is replaced. */
  lemma CutsFirst(q: Limits, v: seq<Seg>, bvs: Seg, s: Seg)
    requires Cuts(q, v, bvs) && v != [] && ValidSeg(q, s)
    ensures Cuts(q, [s] + v[1..], s + Flat(v[1..])) && bvs == v[0] + Flat(v[1..])
  {
    var w := [s] + v[1..];
    forall i | 0 <= i < |w| ensures ValidSeg(q, w[i]) {
      if i > 0 {
        assert w[i] == v[i];
      }
    }
    FlatFirst(w);
    assert w[1..] == v[1..];
    FlatFirst(v);
  }

  lemma CutsTail(q: Limits, v: seq<Seg>, bvs: Seg)
    requires Cuts(q, v, bvs) && v != []
    ensures Cuts(q, v[1..], Flat(v[1..])) && bvs == v[0] + Flat(v[1..])
  {
    forall i | 0 <= i < |v[1..]| ensures ValidSeg(q, v[1..][i]) {
      assert v[1..][i] == v[i + 1];
    }
    FlatFirst(v);
  }

  /** What is left after the first vector needs no more segments. */
  lemma TailCuts(q: Limits, v: seq<Seg>, bvs: Seg) returns (w: seq<Seg>)
    requires Cuts(q, v, bvs) && bvs != []
    ensures Cuts(q, w, bvs[1..]) && |w| <= |v|
  {
    LastOfLast(q, v, bvs);
    assert ValidSeg(q, v[0]);
    CutsTail(q, v, bvs);
    if |v[0]| == 1 {
      w := v[1..];
      assert bvs[1..] == Flat(v[1..]);
    } else {
      ValidTail(q, v[0]);
      CutsFirst(q, v, bvs, v[0][1..]);
      w := [v[0][1..]] + v[1..];
      assert bvs[1..] == v[0][1..] + Flat(v[1..]);
    }
  }

  lemma LaterCuts(q: Limits, v: seq<Seg>, bvs: Seg, n: nat) returns (w: seq<Seg>)
    requires Cuts(q, v, bvs) && bvs != [] && n < bvs[0].len && Advances(q)
    ensures Cuts(q, w, [Later(bvs[0], n)] + bvs[1..]) && |w| == |v|
  {
    LastOfLast(q, v, bvs);
    FirstOfFirst(q, v, bvs);
    assert ValidSeg(q, v[0]);
    var s := v[0][0 := Later(v[0][0], n)];
    ValidLater(q, v[0], n);
    CutsFirst(q, v, bvs, s);
    w := [s] + v[1..];
    assert s + Flat(v[1..]) == [Later(bvs[0], n)] + bvs[1..];
  }

  /** What is left after the first `n` bytes needs no more segments. */
  lemma {:induction false} DropCuts(q: Limits, v: seq<Seg>, bvs: Seg, n: nat) returns (w: seq<Seg>)
    requires Cuts(q, v, bvs) && Advances(q)
    ensures Cuts(q, w, DropBytes(bvs, n)) && |w| <= |v|
    decreases |bvs|
  {
    if n == 0 || bvs == [] {
      w := v;
    } else if n < bvs[0].len {
      w := LaterCuts(q, v, bvs, n);
    } else {
      w := TailCuts(q, v, bvs);
      w := DropCuts(q, w, bvs[1..], n - bvs[0].len);
    }
  }

  lemma GreedyDrop(q: Limits, bvs: Seg, n: nat)
    requires Advances(q)
    ensures |Greedy(q, DropBytes(bvs, n))| <= |Greedy(q, bvs)|
  {
    GreedyCuts(q, bvs);
    var w := DropCuts(q, Greedy(q, bvs), bvs, n);
    GreedyMinimal(q, DropBytes(bvs, n), w);
  }

  /** A partial completion never raises nr_phys_segments. */
  lemma UpdateNarrows(q: Limits, r: Rq, n: nat)
    requires RqInv(q, r) && Aligned(n) && Advances(q)
    ensures Updated(q, r, n).nr <= r.nr
  {
    if Consume(r.bios, n).left != [] {
      InvFits(q, r);
      ConsumeDrops(r.bios, n);
      GreedyDrop(q, Vecs(r.bios), n);
      SufficeBounds(q, Vecs(r.bios), r.nr, r.bios[0].segFront, Last(r.bios).segBack, r.noMerge);
    }
  }

  ghost predicate AllNarrow(q: Limits, rqs: seq<Rq>) {
    forall i :: 0 <= i < |rqs| ==> rqs[i].nr <= q.maxSegments
  }

  /** The bios submitted are counted within the limit, as blk_queue_split leaves them. */
  predicate Narrow(q: Limits, op: Op) {
    op.Submit? ==> Prepared(q, op.b).physSegments <= q.maxSegments
  }

  lemma BioStepNarrow(q: Limits, r: Rq, b: Bio, v: Verdict)
    requires r.nr <= q.maxSegments
    ensures BioStep(q, r, b, v).0.nr <= q.maxSegments
  {
  }

  lemma PairNarrow(q: Limits, a: Rq, b: Rq, ok: bool)
    requires Joinable(a, b) && a.nr <= q.maxSegments && b.nr <= q.maxSegments
    ensures PairMerged(q, a, b, ok).0.nr <= q.maxSegments && PairMerged(q, a, b, ok).1.nr <= q.maxSegments
  {
  }

  lemma OfferNarrow(q: Limits, s: State, i: nat, b: Bio, gap: bool)
    requires AllSound(q, s.rqs) && AllNarrow(q, s.rqs)
    ensures AllNarrow(q, Offered(q, s, i, b, gap).rqs)
  {
    if i < |s.rqs| {
      BioStepNarrow(q, s.rqs[i], b, Judged(q, s.rqs[i], b, gap));
    }
  }

  lemma JoinNarrow(q: Limits, s: State, i: nat, j: nat, ok: bool)
    requires AllSound(q, s.rqs) && AllNarrow(q, s.rqs)
    ensures AllNarrow(q, Joined(q, s, i, j, ok).rqs)
  {
    if i < |s.rqs| && j < |s.rqs| && i != j && s.rqs[i].bios != [] && s.rqs[j].bios != [] {
      InvJoinable(q, s.rqs[i], s.rqs[j]);
      PairNarrow(q, s.rqs[i], s.rqs[j], ok && Small(q, s.rqs[i], s.rqs[j]));
    }
  }

  lemma CompleteNarrow(q: Limits, s: State, i: nat, n: nat)
    requires AllSound(q, s.rqs) && AllNarrow(q, s.rqs) && Advances(q)
    ensures AllNarrow(q, Finished(q, s, i, n).rqs)
  {
    if i < |s.rqs| && Aligned(n) {
      UpdateNarrows(q, s.rqs[i], n);
    }
  }

  lemma ApplyNarrow(q: Limits, s: State, op: Op)
    requires AllSound(q, s.rqs) && AllNarrow(q, s.rqs) && Narrow(q, op) && Advances(q)
    ensures AllNarrow(q, Apply(q, s, op).rqs)
  {
    match op
    case Submit(b) =>
    case Offer(i, b, gap) => OfferNarrow(q, s, i, b, gap);
    case Join(i, j, ok) => JoinNarrow(q, s, i, j, ok);
    case Complete(i, n) => CompleteNarrow(q, s, i, n);
  }

  /** In every run nr_phys_segments is within max_segments, through merges and partial completions. */
  lemma {:induction false} NarrowInEveryRun(q: Limits, ops: seq<Op>)
    requires Advances(q) && forall op :: op in ops ==> Narrow(q, op)
    ensures AllNarrow(q, Run(q, ops).rqs)
  {
    if ops != [] {
      forall op | op in Front(ops) ensures Narrow(q, op) {
        assert op in ops;
      }
      NarrowInEveryRun(q, Front(ops));
      ApplyNarrow(q, Run(q, Front(ops)), Last(ops));
    }
  }

  // ---------------------------------------------------------------- the sector limit

  /** Starting later costs at most the sectors skipped. */
  ghost predicate Recedes(q: Limits) {
    forall p: nat, p': nat :: p <= p' ==> q.maxSectors(p) <= q.maxSectors(p') + (p' - p)
  }

  /** So it is with blk_rq_get_max_sectors, with chunks of `chunk` sectors or without (0). */
  lemma ChunksRecede(q: Limits, chunk: nat, most: nat)
    requires forall p: nat ::
      q.maxSectors(p) == if chunk == 0 || most < chunk - p % chunk then most else chunk - p % chunk
    ensures Recedes(q)
  {
    forall p: nat, p': nat | p <= p' ensures q.maxSectors(p) <= q.maxSectors(p') + (p' - p) {
      if chunk > 0 {
        RestOfChunk(p, p', chunk);
      }
    }
  }

  lemma RestOfChunk(p: nat, p': nat, chunk: nat)
    requires p <= p' && chunk > 0
    ensures chunk - p % chunk <= chunk - p' % chunk + (p' - p)
  {
    QuotientsGrow(p, p', chunk);
    var (i, j) := (p / chunk, p' / chunk);
    assert p == chunk * i + p % chunk && p' == chunk * j + p' % chunk;
    assert chunk * (j - i) == chunk * j - chunk * i;
    NoNegative(chunk, j - i);
  }

  lemma NoNegative(a: int, b: int)
    requires a >= 0 && b >= 0
    ensures a * b >= 0
  {
  }

  predicate Within(q: Limits, r: Rq) {
    Sectors(r.dataLen) <= q.maxSectors(r.sector)
  }

  ghost predicate AllWithin(q: Limits, rqs: seq<Rq>) {
    forall i :: 0 <= i < |rqs| ==> Within(q, rqs[i])
  }

  /** The bios submitted are within the limit. */
  predicate Sized(q: Limits, op: Op) {
    op.Submit? ==> Sectors(BioBytes(op.b)) <= q.maxSectors(op.b.sector)
  }

  lemma AlignedConcat(a: Seg, b: Seg)
    requires Aligned(Size(a)) && Whole(b)
    ensures Aligned(Size(a + b))
  {
    SizeWhole(b);
    SizeConcat(a, b);
    AlignedSum(Size(a), Size(b));
  }

  lemma {:induction false} AlignedVecs(bios: seq<Bio>)
    requires Contiguous(bios)
    ensures Aligned(Size(Vecs(bios)))
  {
    if bios != [] {
      FrontContiguous(bios);
      AlignedVecs(Front(bios));
      AlignedConcat(Vecs(Front(bios)), Last(bios).vecs);
    }
  }

  lemma SoundAligned(q: Limits, r: Rq)
    requires RqInv(q, r)
    ensures Aligned(r.dataLen) && (r.bios == [] ==> r.dataLen == 0)
  {
    InvFits(q, r);
    AlignedVecs(r.bios);
  }

  lemma OfferWithin(q: Limits, s: State, i: nat, b: Bio, gap: bool)
    requires AllSound(q, s.rqs) && AllWithin(q, s.rqs)
    ensures AllWithin(q, Offered(q, s, i, b, gap).rqs)
  {
    if i < |s.rqs| && Fresh(q, s, b) && s.rqs[i].bios != [] {
      SoundAligned(q, s.rqs[i]);
      SizeWhole(b.vecs);
      assert Within(q, s.rqs[i]);
      TakesExactly(q, s.rqs[i], b, gap);
    }
  }

  lemma JoinWithin(q: Limits, s: State, i: nat, j: nat, ok: bool)
    requires AllSound(q, s.rqs) && AllWithin(q, s.rqs)
    ensures AllWithin(q, Joined(q, s, i, j, ok).rqs)
  {
    if i < |s.rqs| && j < |s.rqs| && i != j && s.rqs[i].bios != [] && s.rqs[j].bios != [] {
      var (a, b) := (s.rqs[i], s.rqs[j]);
      InvJoinable(q, a, b);
      SoundAligned(q, a);
      SoundAligned(q, b);
      assert Within(q, a) && Within(q, b);
      AbsorbsExactly(q, a, b, ok);
      PairWithin(q, a, b, ok);
    }
  }

  lemma PairWithin(q: Limits, a: Rq, b: Rq, ok: bool)
    requires Joinable(a, b) && Within(q, a) && Within(q, b) && Aligned(a.dataLen) && Aligned(b.dataLen)
    ensures var p := PairMerged(q, a, b, ok && Small(q, a, b)); Within(q, p.0) && Within(q, p.1)
  {
    AbsorbsExactly(q, a, b, ok);
  }

  lemma ShrinkWithin(q: Limits, sector: nat, len: nat, n: nat)
    requires Recedes(q) && n <= len && Aligned(n) && Aligned(len) && Sectors(len) <= q.maxSectors(sector)
    ensures Sectors(len - n) <= q.maxSectors(sector + Sectors(n))
  {
    assert Sectors(len - n) + Sectors(n) == Sectors(len);
    assert q.maxSectors(sector) <= q.maxSectors(sector + Sectors(n)) + Sectors(n);
  }

  lemma UpdateWithin(q: Limits, r: Rq, n: nat)
    requires RqInv(q, r) && Aligned(n) && Within(q, r) && Recedes(q)
    ensures Within(q, Updated(q, r, n))
  {
    if Consume(r.bios, n).left != [] {
      SoundAligned(q, r);
      InvFits(q, r);
      LeftAccounts(r, n);
      ShrinkWithin(q, r.sector, r.dataLen, n);
    }
  }

  lemma CompleteWithin(q: Limits, s: State, i: nat, n: nat)
    requires AllSound(q, s.rqs) && AllWithin(q, s.rqs) && Recedes(q)
    ensures AllWithin(q, Finished(q, s, i, n).rqs)
  {
    if i < |s.rqs| && Aligned(n) {
      assert Within(q, s.rqs[i]);
      UpdateWithin(q, s.rqs[i], n);
    }
  }

  lemma ApplyWithin(q: Limits, s: State, op: Op)
    requires AllSound(q, s.rqs) && AllWithin(q, s.rqs) && Sized(q, op) && Recedes(q)
    ensures AllWithin(q, Apply(q, s, op).rqs)
  {
    match op
    case Submit(b) =>
    case Offer(i, b, gap) => OfferWithin(q, s, i, b, gap);
    case Join(i, j, ok) => JoinWithin(q, s, i, j, ok);
    case Complete(i, n) => CompleteWithin(q, s, i, n);
  }

  /** In every run no request has more sectors than blk_rq_get_max_sectors allows where it starts. */
  lemma {:induction false} WithinInEveryRun(q: Limits, ops: seq<Op>)
    requires Recedes(q) && forall op :: op in ops ==> Sized(q, op)
    ensures AllWithin(q, Run(q, ops).rqs)
  {
    if ops != [] {
      forall op | op in Front(ops) ensures Sized(q, op) {
        assert op in ops;
      }
      WithinInEveryRun(q, Front(ops));
      ApplyWithin(q, Run(q, Front(ops)), Last(ops));
    }
  }

  // ---------------------------------------------------------------- each bio is somewhere, once

  /** How often `x` occurs. */
  function Times(ids: seq<nat>, x: nat): (n: nat)
    ensures n > 0 <==> x in ids
  {
    if ids == [] then 0
    else assert ids == Front(ids) + [Last(ids)]; Times(Front(ids), x) + if Last(ids) == x then 1 else 0
  }

  lemma {:induction false} TimesConcat(a: seq<nat>, b: seq<nat>, x: nat)
    ensures Times(a + b, x) == Times(a, x) + Times(b, x)
  {
    if b == [] {
      assert a + b == a;
    } else {
      assert Front(a + b) == a + Front(b);
      TimesConcat(a, Front(b), x);
    }
  }

  /** How often `x` is on the bio lists of the requests. */
  function Held(rqs: seq<Rq>, x: nat): nat {
    if rqs == [] then 0 else Held(Front(rqs), x) + Times(Ids(Last(rqs).bios), x)
  }

  lemma {:induction false} HeldUpdate(rqs: seq<Rq>, i: nat, r: Rq, x: nat)
    requires i < |rqs|
    ensures Held(rqs[i := r], x) + Times(Ids(rqs[i].bios), x) == Held(rqs, x) + Times(Ids(r.bios), x)
  {
    if i == |rqs| - 1 {
      assert Front(rqs[i := r]) == Front(rqs);
    } else {
      assert Front(rqs[i := r]) == Front(rqs)[i := r];
      HeldUpdate(Front(rqs), i, r, x);
    }
  }

  lemma {:induction false} HeldAt(rqs: seq<Rq>, i: nat, x: nat)
    requires i < |rqs|
    ensures Times(Ids(rqs[i].bios), x) <= Held(rqs, x)
  {
    if i < |rqs| - 1 {
      HeldAt(Front(rqs), i, x);
    }
  }

  lemma FirstId(b: Bio, rest: seq<Bio>)
    ensures Ids([b] + rest) == [b.id] + Ids(rest)
  {
    IdsConcat([b], rest);
    VecsOne(b);
  }

  /** What is ended and what is left are the bios there were, in order. */
  lemma {:induction false} ConsumeIds(bios: seq<Bio>, n: nat)
    ensures Consume(bios, n).ended + Ids(Consume(bios, n).left) == Ids(bios)
    decreases |bios|
  {
    if bios != [] {
      var b, rest := bios[0], bios[1..];
      assert bios == [b] + rest;
      FirstId(b, rest);
      if n < BioBytes(b) {
        FirstId(Advanced(b, n), rest);
      } else if n > BioBytes(b) {
        ConsumeIds(rest, n - BioBytes(b));
      }
    }
  }

  lemma BackIds(q: Limits, r: Rq, b: Bio)
    requires r.bios != []
    ensures Ids(BackMerged(q, r, b).bios) == Ids(r.bios) + [b.id]
  {
    VecsOne(Prepared(q, b));
    RefreshedIds(q, r, |r.bios| - 1);
    IdsConcat(RefreshedAt(q, r, |r.bios| - 1).bios, [Prepared(q, b)]);
  }

  lemma FrontIds(q: Limits, r: Rq, b: Bio)
    requires r.bios != []
    ensures Ids(FrontMerged(q, r, b).bios) == [b.id] + Ids(r.bios)
  {
    VecsOne(Prepared(q, b));
    RefreshedIds(q, r, 0);
    IdsConcat([Prepared(q, b)], RefreshedAt(q, r, 0).bios);
  }

  /** A request that takes a bio has it at one end, and one that refuses it has what it had. */
  lemma BioStepIds(q: Limits, r: Rq, b: Bio, v: Verdict)
    ensures var p := BioStep(q, r, b, v);
      if !p.1 then Ids(p.0.bios) == Ids(r.bios)
      else Ids(p.0.bios) == Ids(r.bios) + [b.id] || Ids(p.0.bios) == [b.id] + Ids(r.bios)
  {
    if Mergeable(r, b) {
      BackIds(q, r, b);
      FrontIds(q, r, b);
      RefreshedIds(q, r, |r.bios| - 1);
      RefreshedIds(q, r, 0);
    }
  }

  lemma BioStepTimes(q: Limits, r: Rq, b: Bio, v: Verdict, x: nat)
    ensures var p := BioStep(q, r, b, v);
      Times(Ids(p.0.bios), x) == Times(Ids(r.bios), x) + if p.1 && b.id == x then 1 else 0
  {
    BioStepIds(q, r, b, v);
    assert Front([b.id]) == [];
    TimesConcat(Ids(r.bios), [b.id], x);
    TimesConcat([b.id], Ids(r.bios), x);
  }

  lemma PairIds(q: Limits, a: Rq, b: Rq, ok: bool, x: nat)
    requires Joinable(a, b)
    ensures var p := PairMerged(q, a, b, ok);
      Times(Ids(p.0.bios), x) + Times(Ids(p.1.bios), x) == Times(Ids(a.bios), x) + Times(Ids(b.bios), x)
  {
    var p := PairMerged(q, a, b, ok);
    PairMergedConserves(q, a, b, ok);
    IdsConcat(p.0.bios, p.1.bios);
    IdsConcat(a.bios, b.bios);
    TimesConcat(Ids(p.0.bios), Ids(p.1.bios), x);
    TimesConcat(Ids(a.bios), Ids(b.bios), x);
  }

  /** `x` is ended or held as often as it came in, and that is at most once. */
  predicate Conserved(s: State, x: nat) {
    Times(s.ended, x) + Held(s.rqs, x) == Times(Ids(s.entered), x) <= 1
  }

  lemma EnterIds(entered: seq<Bio>, b: Bio, x: nat)
    ensures Times(Ids(entered + [b]), x) == Times(Ids(entered), x) + if b.id == x then 1 else 0
  {
    assert Front(entered + [b]) == entered;
    assert Front(Ids(entered) + [b.id]) == Ids(entered);
  }

  lemma HeldMore(rqs: seq<Rq>, r: Rq, x: nat)
    ensures Held(rqs + [r], x) == Held(rqs, x) + Times(Ids(r.bios), x)
  {
    assert Front(rqs + [r]) == rqs;
  }

  lemma MadeTimes(q: Limits, b: Bio, x: nat)
    ensures Times(Ids(Made(q, b).bios), x) == if b.id == x then 1 else 0
  {
    VecsOne(Prepared(q, b));
    assert Front([b.id]) == [];
  }

  lemma SubmitConserves(q: Limits, s: State, b: Bio, x: nat)
    requires AllSound(q, s.rqs) && Conserved(s, x)
    ensures Conserved(Submitted(q, s, b), x)
  {
    EnterIds(s.entered, b, x);
    MadeTimes(q, b, x);
    HeldMore(s.rqs, Made(q, b), x);
  }

  lemma OfferConserves(q: Limits, s: State, i: nat, b: Bio, gap: bool, x: nat)
    requires AllSound(q, s.rqs) && Conserved(s, x)
    ensures Conserved(Offered(q, s, i, b, gap), x)
  {
    if i < |s.rqs| {
      var v := Judged(q, s.rqs[i], b, gap);
      EnterIds(s.entered, b, x);
      BioStepTimes(q, s.rqs[i], b, v, x);
      HeldUpdate(s.rqs, i, BioStep(q, s.rqs[i], b, v).0, x);
    }
  }

  lemma JoinConserves(q: Limits, s: State, i: nat, j: nat, ok: bool, x: nat)
    requires AllSound(q, s.rqs) && Conserved(s, x)
    ensures Conserved(Joined(q, s, i, j, ok), x)
  {
    if i < |s.rqs| && j < |s.rqs| && i != j && s.rqs[i].bios != [] && s.rqs[j].bios != [] {
      InvJoinable(q, s.rqs[i], s.rqs[j]);
      var may := ok && Small(q, s.rqs[i], s.rqs[j]);
      PairIds(q, s.rqs[i], s.rqs[j], may, x);
      var p := PairMerged(q, s.rqs[i], s.rqs[j], may);
      HeldUpdate(s.rqs, i, p.0, x);
      HeldUpdate(s.rqs[i := p.0], j, p.1, x);
    }
  }

  lemma CompleteConserves(q: Limits, s: State, i: nat, n: nat, x: nat)
    requires AllSound(q, s.rqs) && Conserved(s, x)
    ensures Conserved(Finished(q, s, i, n), x)
  {
    if i < |s.rqs| {
      var r := s.rqs[i];
      var p := Consume(r.bios, n);
      ConsumeIds(r.bios, n);
      TimesConcat(p.ended, Ids(p.left), x);
      TimesConcat(s.ended, p.ended, x);
      UpdatedSame(q, r, n);
      SameBiosFacts(p.left, Updated(q, r, n).bios);
      HeldUpdate(s.rqs, i, Updated(q, r, n), x);
    }
  }

  /** In every run each bio taken in is, exactly once, either ended or on the list of a request; and no other
      bio is. */
  lemma {:induction false} EachBioOnce(q: Limits, ops: seq<Op>, x: nat)
    ensures Conserved(Run(q, ops), x)
  {
    if ops != [] {
      EachBioOnce(q, Front(ops), x);
      ApplyConserves(q, Run(q, Front(ops)), Last(ops), x, Run(q, ops));
    }
  }

  lemma ApplyConserves(q: Limits, s: State, op: Op, x: nat, t: State)
    requires AllSound(q, s.rqs) && Conserved(s, x) && t == Apply(q, s, op)
    ensures Conserved(t, x)
  {
    match op
    case Submit(b) => SubmitConserves(q, s, b, x);
    case Offer(i, b, gap) => OfferConserves(q, s, i, b, gap, x);
    case Join(i, j, ok) => JoinConserves(q, s, i, j, ok, x);
    case Complete(i, n) => CompleteConserves(q, s, i, n, x);
  }

  // ---------------------------------------------------------------- a bio is ended with its last byte

  /** The bytes of bio `x` among the first `n` bytes of a list. */
  function Share(bios: seq<Bio>, n: nat, x: nat): nat
    decreases |bios|
  {
    if bios == [] then 0
    else
      var first := BioBytes(bios[0]);
      (if bios[0].id != x then 0 else if n < first then n else first) +
      (if n > first then Share(bios[1..], n - first, x) else 0)
  }

  /** The bytes of bio `x` completed by an operation, and by a run. */
  function ShareOf(s: State, op: Op, x: nat): nat {
    if op.Complete? && op.i < |s.rqs| && Aligned(op.count) then Share(s.rqs[op.i].bios, op.count, x) else 0
  }

  ghost function Completed(q: Limits, ops: seq<Op>, x: nat): nat {
    if ops == [] then 0 else Completed(q, Front(ops), x) + ShareOf(Run(q, Front(ops)), Last(ops), x)
  }

  /** The vectors bio `x` came in with. */
  function Whence(entered: seq<Bio>, x: nat): Seg {
    if entered == [] then [] else if Last(entered).id == x then Last(entered).vecs else Whence(Front(entered), x)
  }

  /** If `b` is bio `x`, it has what follows the first `d` bytes of `vecs`, and that is something. */
  predicate Part(b: Bio, x: nat, vecs: Seg, d: nat) {
    b.id == x ==> d < Size(vecs) && b.vecs == DropBytes(vecs, d)
  }

  predicate Parts(bios: seq<Bio>, x: nat, vecs: Seg, d: nat) {
    bios == [] || (Parts(Front(bios), x, vecs, d) && Part(Last(bios), x, vecs, d))
  }

  lemma {:induction false} PartAt(bios: seq<Bio>, k: nat, x: nat, vecs: Seg, d: nat)
    requires k < |bios| && Parts(bios, x, vecs, d)
    ensures Part(bios[k], x, vecs, d)
  {
    if k < |bios| - 1 {
      PartAt(Front(bios), k, x, vecs, d);
    }
  }

  lemma {:induction false} NotHeldParts(bios: seq<Bio>, x: nat, vecs: Seg, d: nat)
    requires x !in Ids(bios)
    ensures Parts(bios, x, vecs, d)
  {
    if bios != [] {
      NotHeldParts(Front(bios), x, vecs, d);
    }
  }

  lemma {:induction false} PartsConcat(a: seq<Bio>, b: seq<Bio>, x: nat, vecs: Seg, d: nat)
    ensures Parts(a + b, x, vecs, d) <==> Parts(a, x, vecs, d) && Parts(b, x, vecs, d)
  {
    if b == [] {
      assert a + b == a;
    } else {
      assert Front(a + b) == a + Front(b);
      PartsConcat(a, Front(b), x, vecs, d);
    }
  }

  lemma PartsOne(b: Bio, x: nat, vecs: Seg, d: nat)
    ensures Parts([b], x, vecs, d) <==> Part(b, x, vecs, d)
  {
    assert Front([b]) == [];
  }

  lemma {:induction false} PartsSame(a: seq<Bio>, b: seq<Bio>, x: nat, vecs: Seg, d: nat)
    requires SameBios(a, b) && Parts(a, x, vecs, d)
    ensures Parts(b, x, vecs, d)
  {
    if a != [] {
      PartsSame(Front(a), Front(b), x, vecs, d);
    }
  }

  lemma {:induction false} ShareNone(bios: seq<Bio>, n: nat, x: nat)
    requires x !in Ids(bios)
    ensures Share(bios, n, x) == 0
    decreases |bios|
  {
    if bios != [] {
      TailIds(bios);
      ShareNone(bios[1..], if n > BioBytes(bios[0]) then n - BioBytes(bios[0]) else 0, x);
    }
  }

  lemma TailIds(bios: seq<Bio>)
    requires bios != []
    ensures Ids(bios) == [bios[0].id] + Ids(bios[1..])
  {
    assert bios == [bios[0]] + bios[1..];
    IdsConcat([bios[0]], bios[1..]);
    VecsOne(bios[0]);
  }

  lemma TailTimes(bios: seq<Bio>, x: nat)
    requires bios != []
    ensures Times(Ids(bios), x) == (if bios[0].id == x then 1 else 0) + Times(Ids(bios[1..]), x)
  {
    TailIds(bios);
    TimesConcat([bios[0].id], Ids(bios[1..]), x);
    assert Front([bios[0].id]) == [];
  }

  /** Bio `x` was moved on from `d` to `d'`, and has ended if that was the rest of it. */
  predicate MovedOn(p: Progress, x: nat, vecs: Seg, d': nat) {
    Parts(p.left, x, vecs, d') && (x in p.ended ==> d' == Size(vecs))
  }

  /** A completion moves bio `x` on by its share, and ends it when that was the rest of it. */
  lemma {:induction false} ConsumeTracks(bios: seq<Bio>, n: nat, x: nat, vecs: Seg, d: nat)
    requires Whole(vecs) && Times(Ids(bios), x) <= 1 && Parts(bios, x, vecs, d)
    ensures MovedOn(Consume(bios, n), x, vecs, d + Share(bios, n, x))
    decreases |bios|
  {
    if bios != [] {
      TailTimes(bios, x);
      PartsTail(bios, x, vecs, d);
      if bios[0].id == x {
        FirstTracks(bios, n, x, vecs, d);
      } else if n > BioBytes(bios[0]) {
        ConsumeTracks(bios[1..], n - BioBytes(bios[0]), x, vecs, d);
        LaterTracks(bios, n, x, vecs, d);
      } else {
        EarlierTracks(bios, n, x, vecs, d);
      }
    }
  }

  lemma LaterTracks(bios: seq<Bio>, n: nat, x: nat, vecs: Seg, d: nat)
    requires bios != [] && bios[0].id != x && n > BioBytes(bios[0])
    requires var m := n - BioBytes(bios[0]); MovedOn(Consume(bios[1..], m), x, vecs, d + Share(bios[1..], m, x))
    ensures MovedOn(Consume(bios, n), x, vecs, d + Share(bios, n, x))
  {
  }

  lemma EarlierTracks(bios: seq<Bio>, n: nat, x: nat, vecs: Seg, d: nat)
    requires bios != [] && bios[0].id != x && n <= BioBytes(bios[0]) && Parts(bios[1..], x, vecs, d)
    ensures MovedOn(Consume(bios, n), x, vecs, d + Share(bios, n, x))
  {
    PartsOne(Advanced(bios[0], n), x, vecs, d);
    PartsConcat([Advanced(bios[0], n)], bios[1..], x, vecs, d);
  }

  lemma PartsTail(bios: seq<Bio>, x: nat, vecs: Seg, d: nat)
    requires bios != [] && Parts(bios, x, vecs, d)
    ensures Part(bios[0], x, vecs, d) && Parts(bios[1..], x, vecs, d)
  {
    assert bios == [bios[0]] + bios[1..];
    PartsOne(bios[0], x, vecs, d);
    PartsConcat([bios[0]], bios[1..], x, vecs, d);
  }

  lemma FirstTracks(bios: seq<Bio>, n: nat, x: nat, vecs: Seg, d: nat)
    requires bios != [] && bios[0].id == x && Whole(vecs)
    requires x !in Ids(bios[1..]) && Part(bios[0], x, vecs, d)
    ensures MovedOn(Consume(bios, n), x, vecs, d + Share(bios, n, x))
  {
    var b, rest := bios[0], bios[1..];
    DropSize(vecs, d);
    if n < BioBytes(b) {
      InsideTracks(b, rest, n, x, vecs, d);
    } else {
      ShareNone(rest, n - BioBytes(b), x);
      PastTracks(rest, n - BioBytes(b), x, vecs, d + BioBytes(b));
    }
  }

  lemma InsideTracks(b: Bio, rest: seq<Bio>, n: nat, x: nat, vecs: Seg, d: nat)
    requires b.id == x && Whole(vecs) && x !in Ids(rest) && Part(b, x, vecs, d) && d + n < Size(vecs)
    ensures Parts([Advanced(b, n)] + rest, x, vecs, d + n)
  {
    DropDrop(vecs, d, n);
    NotHeldParts(rest, x, vecs, d + n);
    PartsOne(Advanced(b, n), x, vecs, d + n);
    PartsConcat([Advanced(b, n)], rest, x, vecs, d + n);
  }

  lemma PastTracks(rest: seq<Bio>, m: nat, x: nat, vecs: Seg, d: nat)
    requires x !in Ids(rest)
    ensures Parts(rest, x, vecs, d) && Parts(Consume(rest, m).left, x, vecs, d) && x !in Consume(rest, m).ended
  {
    ConsumeIds(rest, m);
    NotHeldParts(rest, x, vecs, d);
    NotHeldParts(Consume(rest, m).left, x, vecs, d);
  }

  predicate AllParts(rqs: seq<Rq>, x: nat, vecs: Seg, d: nat) {
    rqs == [] || (AllParts(Front(rqs), x, vecs, d) && Parts(Last(rqs).bios, x, vecs, d))
  }

  lemma {:induction false} AllPartsAt(rqs: seq<Rq>, i: nat, x: nat, vecs: Seg, d: nat)
    requires AllParts(rqs, x, vecs, d) && i < |rqs|
    ensures Parts(rqs[i].bios, x, vecs, d)
  {
    if i < |rqs| - 1 {
      AllPartsAt(Front(rqs), i, x, vecs, d);
    }
  }

  lemma {:induction false} AllPartsUpdate(rqs: seq<Rq>, i: nat, r: Rq, x: nat, vecs: Seg, d: nat)
    requires AllParts(rqs, x, vecs, d) && i < |rqs| && Parts(r.bios, x, vecs, d)
    ensures AllParts(rqs[i := r], x, vecs, d)
  {
    if i == |rqs| - 1 {
      assert Front(rqs[i := r]) == Front(rqs);
    } else {
      assert Front(rqs[i := r]) == Front(rqs)[i := r];
      AllPartsUpdate(Front(rqs), i, r, x, vecs, d);
    }
  }

  lemma {:induction false} AllWithout(rqs: seq<Rq>, x: nat, vecs: Seg, d: nat)
    requires Held(rqs, x) == 0
    ensures AllParts(rqs, x, vecs, d)
  {
    if rqs != [] {
      AllWithout(Front(rqs), x, vecs, d);
      NotHeldParts(Last(rqs).bios, x, vecs, d);
    }
  }

  /** Only the one request that holds `x`, if any, can move it on. */
  lemma OneMovesOn(rqs: seq<Rq>, i: nat, r: Rq, x: nat, vecs: Seg, d: nat, d': nat)
    requires i < |rqs| && Held(rqs, x) <= 1 && AllParts(rqs, x, vecs, d) && Parts(r.bios, x, vecs, d')
    requires x !in Ids(rqs[i].bios) ==> d' == d
    ensures AllParts(rqs[i := r], x, vecs, d')
  {
    if x in Ids(rqs[i].bios) {
      HeldUpdate(rqs, i, NOTHING, x);
      AllWithout(rqs[i := NOTHING], x, vecs, d');
      AllPartsUpdate(rqs[i := NOTHING], i, r, x, vecs, d');
      assert rqs[i := NOTHING][i := r] == rqs[i := r];
    } else {
      AllPartsUpdate(rqs, i, r, x, vecs, d);
    }
  }

  datatype Standing = Known | Unknown

  /** What is known of bio `x` when `d` of its bytes are completed, as a value. */
  function StandingOf(s: State, x: nat, d: nat): Standing {
    var vecs := Whence(s.entered, x);
    if && AllParts(s.rqs, x, vecs, d)
       && (if x in Ids(s.entered) then Whole(vecs) else d == 0)
       && (x in s.ended ==> d == Size(vecs))
    then Known else Unknown
  }

  predicate Tracked(s: State, x: nat, d: nat) {
    StandingOf(s, x, d) == Known
  }

  lemma UpdatedSame(q: Limits, r: Rq, n: nat)
    ensures SameBios(Consume(r.bios, n).left, Updated(q, r, n).bios)
  {
    var left := Consume(r.bios, n).left;
    if left != [] {
      RecachedRefreshes(q, left, Greedy(q, Vecs(left)));
    }
  }

  lemma CompletePart(bios: seq<Bio>, n: nat, x: nat, vecs: Seg, d: nat, d': nat)
    requires Parts(bios, x, vecs, d) && Times(Ids(bios), x) <= 1 && (x in Ids(bios) ==> Whole(vecs))
    requires d' == d + Share(bios, n, x)
    ensures MovedOn(Consume(bios, n), x, vecs, d') && (x !in Ids(bios) ==> d' == d)
  {
    if x in Ids(bios) {
      ConsumeTracks(bios, n, x, vecs, d);
    } else {
      ShareNone(bios, n, x);
      PastTracks(bios, n, x, vecs, d);
    }
  }

  lemma CompleteAll(rqs: seq<Rq>, i: nat, u: Rq, n: nat, x: nat, vecs: Seg, d: nat, d': nat)
    requires i < |rqs| && Held(rqs, x) <= 1 && AllParts(rqs, x, vecs, d)
    requires d' == d + Share(rqs[i].bios, n, x) && (x in Ids(rqs[i].bios) ==> Whole(vecs))
    requires SameBios(Consume(rqs[i].bios, n).left, u.bios)
    ensures AllParts(rqs[i := u], x, vecs, d')
    ensures x in Consume(rqs[i].bios, n).ended ==> d' == Size(vecs)
    ensures x !in Ids(rqs[i].bios) ==> d' == d
  {
    var bios := rqs[i].bios;
    HeldAt(rqs, i, x);
    AllPartsAt(rqs, i, x, vecs, d);
    CompletePart(bios, n, x, vecs, d, d');
    PartsSame(Consume(bios, n).left, u.bios, x, vecs, d');
    OneMovesOn(rqs, i, u, x, vecs, d, d');
  }

  lemma CompleteTracks(q: Limits, s: State, i: nat, n: nat, x: nat, d: nat, d': nat)
    requires AllSound(q, s.rqs) && Conserved(s, x) && Tracked(s, x, d) && i < |s.rqs| && Aligned(n)
    requires d' == d + Share(s.rqs[i].bios, n, x)
    ensures Tracked(Finished(q, s, i, n), x, d')
  {
    HeldAt(s.rqs, i, x);
    UpdatedSame(q, s.rqs[i], n);
    CompleteAll(s.rqs, i, Updated(q, s.rqs[i], n), n, x, Whence(s.entered, x), d, d');
  }

  lemma BackParts(q: Limits, r: Rq, b: Bio, x: nat, vecs: Seg, d: nat)
    requires r.bios != [] && Parts(r.bios, x, vecs, d) && Part(b, x, vecs, d)
    ensures Parts(BackMerged(q, r, b).bios, x, vecs, d) && Parts(RefreshedAt(q, r, |r.bios| - 1).bios, x, vecs, d)
  {
    var i := |r.bios| - 1;
    SameBiosUpdate(r.bios, i, Prepared(q, r.bios[i]));
    PartsSame(r.bios, RefreshedAt(q, r, i).bios, x, vecs, d);
    PartsOne(Prepared(q, b), x, vecs, d);
    PartsConcat(RefreshedAt(q, r, i).bios, [Prepared(q, b)], x, vecs, d);
  }

  lemma FrontParts(q: Limits, r: Rq, b: Bio, x: nat, vecs: Seg, d: nat)
    requires r.bios != [] && Parts(r.bios, x, vecs, d) && Part(b, x, vecs, d)
    ensures Parts(FrontMerged(q, r, b).bios, x, vecs, d) && Parts(RefreshedAt(q, r, 0).bios, x, vecs, d)
  {
    SameBiosUpdate(r.bios, 0, Prepared(q, r.bios[0]));
    PartsSame(r.bios, RefreshedAt(q, r, 0).bios, x, vecs, d);
    PartsOne(Prepared(q, b), x, vecs, d);
    PartsConcat([Prepared(q, b)], RefreshedAt(q, r, 0).bios, x, vecs, d);
  }

  lemma BioStepParts(q: Limits, r: Rq, b: Bio, v: Verdict, x: nat, vecs: Seg, d: nat)
    requires Parts(r.bios, x, vecs, d) && Part(b, x, vecs, d)
    ensures Parts(BioStep(q, r, b, v).0.bios, x, vecs, d)
  {
    if Mergeable(r, b) {
      BackParts(q, r, b, x, vecs, d);
      FrontParts(q, r, b, x, vecs, d);
    }
  }

  /** A bio refused leaves the lists as they were. */
  lemma RefusedParts(q: Limits, r: Rq, b: Bio, v: Verdict, x: nat, vecs: Seg, d: nat)
    requires Parts(r.bios, x, vecs, d) && !BioStep(q, r, b, v).1
    ensures Parts(BioStep(q, r, b, v).0.bios, x, vecs, d)
  {
    if Mergeable(r, b) {
      SameBiosUpdate(r.bios, |r.bios| - 1, Prepared(q, Last(r.bios)));
      SameBiosUpdate(r.bios, 0, Prepared(q, r.bios[0]));
      PartsSame(r.bios, RefreshedAt(q, r, |r.bios| - 1).bios, x, vecs, d);
      PartsSame(r.bios, RefreshedAt(q, r, 0).bios, x, vecs, d);
    }
  }

  /** Whatever came in before keeps its vectors, and the newcomer brings its own. */
  lemma EnterTracks(q: Limits, s: State, b: Bio, x: nat, d: nat)
    requires Fresh(q, s, b) && Conserved(s, x) && Tracked(s, x, d)
    ensures Tracked(s.(entered := s.entered + [b]), x, d) && Part(b, x, Whence(s.entered + [b], x), d)
  {
    var vecs := Whence(s.entered + [b], x);
    assert Front(s.entered + [b]) == s.entered;
    if b.id == x {
      SizeWhole(b.vecs);
      AllWithout(s.rqs, x, vecs, d);
    }
  }

  lemma AddTracks(s: State, r: Rq, x: nat, d: nat)
    requires Tracked(s, x, d) && Parts(r.bios, x, Whence(s.entered, x), d)
    ensures Tracked(s.(rqs := s.rqs + [r]), x, d)
  {
    assert Front(s.rqs + [r]) == s.rqs;
  }

  lemma SubmitTracks(q: Limits, s: State, b: Bio, x: nat, d: nat)
    requires AllSound(q, s.rqs) && Conserved(s, x) && Tracked(s, x, d)
    ensures Tracked(Submitted(q, s, b), x, d)
  {
    if Fresh(q, s, b) {
      EnterTracks(q, s, b, x, d);
      PartsOne(Prepared(q, b), x, Whence(s.entered + [b], x), d);
      AddTracks(s.(entered := s.entered + [b]), Made(q, b), x, d);
    }
  }

  lemma OfferTracks(q: Limits, s: State, i: nat, b: Bio, gap: bool, x: nat, d: nat)
    requires AllSound(q, s.rqs) && Conserved(s, x) && Tracked(s, x, d)
    ensures Tracked(Offered(q, s, i, b, gap), x, d)
  {
    if i < |s.rqs| && Fresh(q, s, b) {
      var v := Judged(q, s.rqs[i], b, gap);
      if BioStep(q, s.rqs[i], b, v).1 {
        var vecs := Whence(s.entered + [b], x);
        EnterTracks(q, s, b, x, d);
        AllPartsAt(s.rqs, i, x, vecs, d);
        BioStepParts(q, s.rqs[i], b, v, x, vecs, d);
        AllPartsUpdate(s.rqs, i, BioStep(q, s.rqs[i], b, v).0, x, vecs, d);
      } else {
        var vecs := Whence(s.entered, x);
        AllPartsAt(s.rqs, i, x, vecs, d);
        RefusedParts(q, s.rqs[i], b, v, x, vecs, d);
        AllPartsUpdate(s.rqs, i, BioStep(q, s.rqs[i], b, v).0, x, vecs, d);
      }
    }
  }

  lemma PairParts(q: Limits, a: Rq, b: Rq, ok: bool, x: nat, vecs: Seg, d: nat)
    requires Joinable(a, b) && Parts(a.bios, x, vecs, d) && Parts(b.bios, x, vecs, d)
    ensures var p := PairMerged(q, a, b, ok); Parts(p.0.bios, x, vecs, d) && Parts(p.1.bios, x, vecs, d)
  {
    var p := PairMerged(q, a, b, ok);
    var size := Last(a.bios).segBack + b.bios[0].segFront;
    RaisedSame(a, b, size);
    PartsSame(a.bios, FrontRaised(a, size).bios, x, vecs, d);
    PartsSame(b.bios, BackRaised(b, size).bios, x, vecs, d);
    PairBios(q, a, b, ok, size);
    PartsConcat(a.bios, b.bios, x, vecs, d);
    PartsConcat(FrontRaised(a, size).bios, BackRaised(b, size).bios, x, vecs, d);
    PartsConcat(p.0.bios, p.1.bios, x, vecs, d);
  }

  lemma JoinTracks(q: Limits, s: State, i: nat, j: nat, ok: bool, x: nat, d: nat)
    requires AllSound(q, s.rqs) && Tracked(s, x, d)
    ensures Tracked(Joined(q, s, i, j, ok), x, d)
  {
    if i < |s.rqs| && j < |s.rqs| && i != j && s.rqs[i].bios != [] && s.rqs[j].bios != [] {
      InvJoinable(q, s.rqs[i], s.rqs[j]);
      var may := ok && Small(q, s.rqs[i], s.rqs[j]);
      var vecs, p := Whence(s.entered, x), PairMerged(q, s.rqs[i], s.rqs[j], may);
      AllPartsAt(s.rqs, i, x, vecs, d);
      AllPartsAt(s.rqs, j, x, vecs, d);
      PairParts(q, s.rqs[i], s.rqs[j], may, x, vecs, d);
      AllPartsUpdate(s.rqs, i, p.0, x, vecs, d);
      AllPartsUpdate(s.rqs[i := p.0], j, p.1, x, vecs, d);
    }
  }

  /** `t` has what the first `d` bytes of bio `x` completed leave. */
  lemma ApplyTracks(q: Limits, s: State, op: Op, x: nat, d: nat, d': nat, t: State)
    requires AllSound(q, s.rqs) && Conserved(s, x) && Tracked(s, x, d) && d' == d + ShareOf(s, op, x) && t == Apply(q, s, op)
    ensures Tracked(t, x, d')
  {
    match op
    case Submit(b) => SubmitTracks(q, s, b, x, d);
    case Offer(i, b, gap) => OfferTracks(q, s, i, b, gap, x, d);
    case Join(i, j, ok) => JoinTracks(q, s, i, j, ok, x, d);
    case Complete(i, n) => FinishTracks(q, s, i, n, x, d, d');
  }

  lemma FinishTracks(q: Limits, s: State, i: nat, n: nat, x: nat, d: nat, d': nat)
    requires AllSound(q, s.rqs) && Conserved(s, x) && Tracked(s, x, d) && d' == d + ShareOf(s, Complete(i, n), x)
    ensures Tracked(Finished(q, s, i, n), x, d')
  {
    if i < |s.rqs| && Aligned(n) {
      CompleteTracks(q, s, i, n, x, d, d');
    }
  }

  lemma {:induction false} TrackedInEveryRun(q: Limits, ops: seq<Op>, x: nat)
    ensures Tracked(Run(q, ops), x, Completed(q, ops, x))
  {
    if ops != [] {
      TrackedInEveryRun(q, Front(ops), x);
      EachBioOnce(q, Front(ops), x);
      ApplyTracks(q, Run(q, Front(ops)), Last(ops), x, Completed(q, Front(ops), x), Completed(q, ops, x), Run(q, ops));
    }
  }

  lemma {:induction false} IdAt(bios: seq<Bio>, k: nat)
    requires k < |bios|
    ensures Ids(bios)[k] == bios[k].id
  {
    if k < |bios| - 1 {
      IdAt(Front(bios), k);
    }
  }

  lemma {:induction false} HeldSomewhere(rqs: seq<Rq>, x: nat) returns (i: nat, k: nat)
    requires Held(rqs, x) > 0
    ensures i < |rqs| && k < |rqs[i].bios| && rqs[i].bios[k].id == x
  {
    if x in Ids(Last(rqs).bios) {
      i := |rqs| - 1;
      k :| 0 <= k < |Ids(rqs[i].bios)| && Ids(rqs[i].bios)[k] == x;
      IdAt(rqs[i].bios, k);
    } else {
      i, k := HeldSomewhere(Front(rqs), x);
    }
  }

  /** Bio `k` of request `i` is `x`, with these vectors left. */
  predicate HeldAs(rqs: seq<Rq>, i: nat, k: nat, x: nat, vecs: Seg) {
    i < |rqs| && k < |rqs[i].bios| && rqs[i].bios[k].id == x && rqs[i].bios[k].vecs == vecs
  }

  /** In every run, whatever is merged in between, a bio taken in has been ended exactly when all its bytes
      are completed; until then a request holds what follows the completed ones. */
  lemma EndedWithLastByte(q: Limits, ops: seq<Op>, x: nat)
    requires x in Ids(Run(q, ops).entered)
    ensures var s := Run(q, ops); var (vecs, d) := (Whence(s.entered, x), Completed(q, ops, x));
      && d <= Size(vecs) && (x in s.ended <==> d == Size(vecs))
      && (x !in s.ended ==> exists i, k :: HeldAs(s.rqs, i, k, x, DropBytes(vecs, d)))
  {
    TrackedInEveryRun(q, ops, x);
    EachBioOnce(q, ops, x);
    var s := Run(q, ops);
    if x !in s.ended {
      var i, k := HeldSomewhere(s.rqs, x);
      AllPartsAt(s.rqs, i, x, Whence(s.entered, x), Completed(q, ops, x));
      PartAt(s.rqs[i].bios, k, x, Whence(s.entered, x), Completed(q, ops, x));
      assert HeldAs(s.rqs, i, k, x, DropBytes(Whence(s.entered, x), Completed(q, ops, x)));
    }
  }
}
