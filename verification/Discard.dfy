/** Discards: the tiling loop of __blkdev_issue_discard in block/blk-lib.c and blk_bio_discard_split
    in block/blk-merge.c.
 */
module Discard {
  import opened Common

  /** UINT_MAX >> 9: the most sectors whose byte count fits bi_size. */
  const MAX_SECTORS: nat := 8388607

  /** Granularity and alignment in sectors, as both functions derive them from the queue limits. */
  datatype Grid = Grid(granularity: nat, alignment: nat)

  predicate GridOk(g: Grid) {
    1 <= g.granularity <= MAX_SECTORS && g.alignment < g.granularity
  }

  /** `granularity` and `alignment` are 32-bit byte counts; zero and one sector are the same. */
  function GridOf(granularity: nat, alignment: nat): (g: Grid)
    requires granularity < 0x1_0000_0000
    ensures GridOk(g)
  {
    var sectors := if granularity / 512 > 1 then granularity / 512 else 1;
    Grid(sectors, alignment / 512 % sectors)
  }

  predicate OnGrid(g: Grid, sector: nat)
    requires g.granularity > 0
  {
    sector % g.granularity == g.alignment
  }

  lemma ScaledMod(c: nat, x: nat, k: nat)
    requires c > 0 && k > 0
    ensures c * k > 0 && (c * x) % (c * k) == c * (x % k)
  {
    Euclid(x, k);
    var (i, r) := (x / k, x % k);
    assert c * x == i * (c * k) + c * r by {
      assert c * x == c * (i * k + r);
      assert c * (i * k) == i * (c * k);
    }
    ScaledBelow(c, r, k);
    ModIs(i, c * k, c * r);
  }

  lemma ScaledBelow(c: nat, r: nat, k: nat)
    requires c > 0 && r < k
    ensures 0 <= c * r < c * k
  {
    assert c * (k - r) > 0;
  }

  /** In bytes: for limits in whole sectors, the grid points are the byte offsets that have the remainder of the
      alignment modulo the granularity. */
  lemma GridInBytes(granularity: nat, alignment: nat, sector: nat)
    requires 512 <= granularity < 0x1_0000_0000 && granularity % 512 == 0 && alignment % 512 == 0
    ensures OnGrid(GridOf(granularity, alignment), sector) <==> (512 * sector) % granularity == alignment % granularity
  {
    var (k, a) := (granularity / 512, alignment / 512);
    ScaledMod(512, sector, k);
    ScaledMod(512, a, k);
  }

  // ---------------------------------------------------------------- rounding

  /** The last grid point at or before `e`. */
  function RoundDown(g: Grid, e: nat): int
    requires g.granularity > 0 && g.alignment <= e
  {
    (e - g.alignment) / g.granularity * g.granularity + g.alignment
  }

  lemma QuotientNatural(x: nat, d: nat)
    requires d > 0
    ensures x / d >= 0 && (x / d) * d >= 0
  {
  }

  lemma RoundDownIs(g: Grid, e: nat)
    requires GridOk(g) && g.alignment <= e
    ensures var p := RoundDown(g, e); 0 <= p <= e < p + g.granularity && OnGrid(g, p)
  {
    var x := e - g.alignment;
    Euclid(x, g.granularity);
    QuotientNatural(x, g.granularity);
    ModIs(x / g.granularity, g.granularity, g.alignment);
  }

  // ---------------------------------------------------------------- __blkdev_issue_discard

  datatype Piece = Piece(sector: nat, sects: nat)

  function PieceEnd(p: Piece): nat {
    p.sector + p.sects
  }

  /** Consecutive pieces from `s` to `e`, none empty or too long, with every inner boundary on the grid, and all but
      the last as long as the grid allows. */
  predicate Tiles(g: Grid, ps: seq<Piece>, s: nat, e: nat)
    requires g.granularity > 0
  {
    if ps == [] then s == e
    else
      var last := ps[|ps| - 1];
      && PieceEnd(last) == e && 0 < last.sects <= MAX_SECTORS
      && (|ps| > 1 ==> OnGrid(g, last.sector) && ps[|ps| - 2].sects + g.granularity > MAX_SECTORS)
      && Tiles(g, ps[..|ps| - 1], s, last.sector)
  }

  /** The sectors of the next piece. */
  function NextSects(g: Grid, sector: nat, nr: nat): int
    requires GridOk(g) && nr > 0
  {
    var req := if nr < MAX_SECTORS then nr else MAX_SECTORS;
    if req < nr && !OnGrid(g, sector + req) then RoundDown(g, sector + req) - sector else req
  }

  /** The loop makes progress for every granularity, and splits only on the grid. */
  lemma NextSectsIs(g: Grid, sector: nat, nr: nat)
    requires GridOk(g) && nr > 0
    ensures var n := NextSects(g, sector, nr);
      0 < n <= nr && n <= MAX_SECTORS && (n < nr ==> OnGrid(g, sector + n) && n + g.granularity > MAX_SECTORS)
  {
    var req := if nr < MAX_SECTORS then nr else MAX_SECTORS;
    if req < nr {
      RoundDownIs(g, sector + req);
    }
  }

  /** The loop of __blkdev_issue_discard.  Each bio is chained to the one allocated after it. */
  method TileDiscard(g: Grid, start: nat, count: nat) returns (ps: seq<Piece>, parents: seq<Option<nat>>)
    requires GridOk(g)
    ensures Tiles(g, ps, start, start + count)
    ensures Chained(ps, parents)
  {
    ps, parents := [], [];
    var sector, nr := start, count;
    while nr > 0
      invariant nr >= 0 && sector + nr == start + count && Tiles(g, ps, start, sector)
      invariant ps != [] && nr > 0 ==> OnGrid(g, sector) && ps[|ps| - 1].sects + g.granularity > MAX_SECTORS
      invariant |parents| == |ps| && forall i :: 0 <= i < |ps| ==> parents[i] == if i + 1 < |ps| then Some(i + 1) else None
    {
      var p := NextPiece(g, sector, nr);
      // next_bio
      if parents != [] {
        parents := parents[|parents| - 1 := Some(|parents|)];
      }
      parents := parents + [None];
      assert (ps + [p])[..|ps|] == ps;
      ps := ps + [p];
      nr, sector := nr - p.sects, PieceEnd(p);
    }
  }

  method NextPiece(g: Grid, sector: nat, nr: nat) returns (p: Piece)
    requires GridOk(g) && nr > 0
    ensures p.sector == sector && 0 < p.sects <= nr && p.sects <= MAX_SECTORS && p.sects == NextSects(g, sector, nr)
    ensures p.sects < nr ==> OnGrid(g, PieceEnd(p)) && p.sects + g.granularity > MAX_SECTORS
  {
    NextSectsIs(g, sector, nr);
    var req := if nr < MAX_SECTORS then nr else MAX_SECTORS;
    var end := sector + req;
    if req < nr && end % g.granularity != g.alignment {
      end := (end - g.alignment) / g.granularity * g.granularity + g.alignment;
      req := end - sector;
    }
    p := Piece(sector, req);
  }

  /** `parents` gives the bio each piece is chained to, and `first` the one the bio passed in is. */
  datatype Result = Ok(pieces: seq<Piece>, parents: seq<Option<nat>>, first: Option<nat>) | Misaligned

  /** Each piece is chained to the next one; the last, which is handed back, to none. */
  predicate Chained(ps: seq<Piece>, parents: seq<Option<nat>>) {
    |parents| == |ps| && forall i :: 0 <= i < |ps| ==> parents[i] == if i + 1 < |ps| then Some(i + 1) else None
  }

  /** __blkdev_issue_discard on a device with `block` sectors per logical block; `given` tells whether the
      caller passed a bio in, and the queue limits give granularity and alignment in bytes. */
  method IssueDiscard(granularity: nat, alignment: nat, block: nat, start: nat, count: nat, given: bool) returns (r: Result)
    requires granularity < 0x1_0000_0000 && block > 0
    ensures r.Misaligned? <==> start % block != 0 || count % block != 0
    ensures r.Ok? ==> Tiles(GridOf(granularity, alignment), r.pieces, start, start + count) && Chained(r.pieces, r.parents)
    ensures r.Ok? ==> r.first == if given && r.pieces != [] then Some(0) else None
  {
    if start % block != 0 || count % block != 0 {
      return Misaligned;
    }
    var ps, parents := TileDiscard(GridOf(granularity, alignment), start, count);
    r := Ok(ps, parents, if given && ps != [] then Some(0) else None);
  }

  // ---------------------------------------------------------------- what a tiling means

  lemma {:induction false} TilesInside(g: Grid, ps: seq<Piece>, s: nat, e: nat, i: nat)
    requires GridOk(g) && Tiles(g, ps, s, e) && i < |ps|
    ensures s <= ps[i].sector && PieceEnd(ps[i]) <= e && 0 < ps[i].sects <= MAX_SECTORS
    ensures i + 1 < |ps| ==> PieceEnd(ps[i]) == ps[i + 1].sector && OnGrid(g, ps[i + 1].sector)
    ensures i + 1 < |ps| ==> ps[i].sects + g.granularity > MAX_SECTORS
    ensures i == 0 ==> ps[i].sector == s
  {
    var front := ps[..|ps| - 1];
    TilesOrder(g, front, s, ps[|ps| - 1].sector);
    if i < |ps| - 1 {
      TilesInside(g, front, s, ps[|ps| - 1].sector, i);
      if i + 1 == |ps| - 1 {
        assert front[|front| - 1] == ps[i];
      }
    }
  }

  lemma {:induction false} TilesOrder(g: Grid, ps: seq<Piece>, s: nat, e: nat)
    requires GridOk(g) && Tiles(g, ps, s, e)
    ensures s <= e
  {
    if ps != [] {
      TilesOrder(g, ps[..|ps| - 1], s, ps[|ps| - 1].sector);
    }
  }

  predicate InPiece(p: Piece, x: nat) {
    p.sector <= x < PieceEnd(p)
  }

  /** Every sector of the range is in exactly one piece, and no other sector is in any. */
  lemma {:induction false} TilesExactly(g: Grid, ps: seq<Piece>, s: nat, e: nat, x: nat)
    requires GridOk(g) && Tiles(g, ps, s, e)
    ensures s <= x < e <==> exists i :: 0 <= i < |ps| && InPiece(ps[i], x)
    ensures forall i, j :: 0 <= i < j < |ps| ==> !(InPiece(ps[i], x) && InPiece(ps[j], x))
  {
    if ps != [] {
      var front, last := ps[..|ps| - 1], ps[|ps| - 1];
      TilesExactly(g, front, s, last.sector, x);
      TilesOrder(g, front, s, last.sector);
      if s <= x < last.sector {
        var i :| 0 <= i < |front| && InPiece(front[i], x);
        assert InPiece(ps[i], x);
      } else if last.sector <= x < e {
        assert InPiece(ps[|ps| - 1], x);
      }
      forall i | 0 <= i < |ps| && InPiece(ps[i], x) ensures s <= x < e && (i < |ps| - 1 ==> !InPiece(last, x)) {
        if i < |ps| - 1 {
          assert InPiece(front[i], x);
        }
      }
      forall i, j | 0 <= i < j < |ps| ensures !(InPiece(ps[i], x) && InPiece(ps[j], x)) {
        if j < |ps| - 1 {
          assert front[i] == ps[i] && front[j] == ps[j];
        }
      }
    }
  }

  // ---------------------------------------------------------------- blk_bio_discard_split

  /** Where blk_bio_discard_split cuts a discard of `sectors` sectors at `sector`, if at all. */
  method DiscardSplit(granularity: nat, alignment: nat, maxDiscard: nat, sector: nat, sectors: nat) returns (cut: Option<nat>)
    requires granularity < 0x1_0000_0000
    ensures var g := GridOf(granularity, alignment);
      && (cut.Some? ==> 0 < cut.value < sectors && cut.value <= maxDiscard && OnGrid(g, sector + cut.value))
      && (cut.Some? ==> cut.value <= Whole(g, maxDiscard) < cut.value + g.granularity)
      && (cut.None? <==>
            (if maxDiscard < MAX_SECTORS then maxDiscard else MAX_SECTORS) < g.granularity || sectors <= Whole(g, maxDiscard))
  {
    var g := GridOf(granularity, alignment);
    var limit := if maxDiscard < MAX_SECTORS then maxDiscard else MAX_SECTORS;
    limit := limit - limit % g.granularity;
    WholeIs(g, maxDiscard);
    if limit == 0 {
      return None;
    }
    if sectors <= limit {
      return None;
    }
    var split := limit;
    var tmp := (sector + split - g.alignment) % g.granularity;
    CutOnGrid(g, sector + split);
    if split > tmp {
      split := split - tmp;
    }
    cut := Some(split);
  }

  /** The limit rounded down to whole granules. */
  function Whole(g: Grid, maxDiscard: nat): int
    requires g.granularity > 0
  {
    var limit := if maxDiscard < MAX_SECTORS then maxDiscard else MAX_SECTORS;
    limit - limit % g.granularity
  }

  lemma WholeIs(g: Grid, maxDiscard: nat)
    requires GridOk(g)
    ensures var limit := if maxDiscard < MAX_SECTORS then maxDiscard else MAX_SECTORS;
      var w := Whole(g, maxDiscard); 0 <= w <= limit && (w == 0 <==> limit < g.granularity) && (w > 0 ==> w >= g.granularity)
  {
    var limit := if maxDiscard < MAX_SECTORS then maxDiscard else MAX_SECTORS;
    WholeOf(limit, g.granularity);
  }

  lemma WholeOf(x: nat, d: nat)
    requires d > 0
    ensures 0 <= x - x % d <= x && (x - x % d == 0 <==> x < d) && (x - x % d > 0 ==> x - x % d >= d)
  {
    Euclid(x, d);
    QuotientNatural(x, d);
    if x / d >= 1 {
      MulAtLeast(x / d, d);
    }
  }

  lemma CutOnGrid(g: Grid, e: nat)
    requires GridOk(g) && e >= g.granularity
    ensures var tmp := (e - g.alignment) % g.granularity; 0 <= tmp < g.granularity && e - tmp >= 0 && OnGrid(g, e - tmp)
  {
    RoundDownIs(g, e);
    Euclid(e - g.alignment, g.granularity);
  }
}
