/** The bad-block table of block/badblocks.c: a sorted array of ranges of at most 512 sectors, each
    with an acknowledged flag.

    Only shift 0 is modelled, which is what an enabled table has.
 */
module BadBlocks {
  import opened Common

  const BB_MAX_LEN := 512
  const MAX_BADBLOCKS := 512

  /** One sector past the largest number the table is asked about; a range starts in 54 bits. */
  const LIMIT: nat := 0x3F_FFFF_FFFF_FFFF

  // ---------------------------------------------------------------- words

  datatype Range = Range(start: nat, len: nat, ack: bool)

  function End(r: Range): nat {
    r.start + r.len
  }

  /** BB_MAKE.  The three fields are disjoint; a length below 1 sign-extends over the whole word. */
  function Made(start: nat, len: int, ack: bool): Range {
    if len >= 1 then Range(start, len, ack) else Range(LIMIT, LowBits(len - 1) + 1, true)
  }

  /** The low nine bits of a number below 512, in two's complement. */
  function LowBits(n: int): (bits: nat)
    requires n < 512
    ensures bits < 512
    decreases 512 - n
  {
    if n >= 0 then n else LowBits(n + 512)
  }

  predicate Storable(r: Range) {
    r.start <= LIMIT && 1 <= r.len <= 512
  }

  function Pack(r: Range): int {
    r.start * 512 + (r.len - 1) + if r.ack then 0x8000_0000_0000_0000 else 0
  }

  /** BB_OFFSET, BB_LEN and BB_ACK. */
  function Unpack(word: nat): Range {
    Range(word % 0x8000_0000_0000_0000 / 512, word % 512 + 1, word >= 0x8000_0000_0000_0000)
  }

  lemma PackRoundTrip(r: Range)
    requires Storable(r)
    ensures 0 <= Pack(r) < 0x1_0000_0000_0000_0000 && Unpack(Pack(r)) == r
  {
    var low := r.start * 512 + (r.len - 1);
    assert low < 0x8000_0000_0000_0000;
    assert low / 512 == r.start && low % 512 == r.len - 1;
    assert r.ack ==> (low + 0x8000_0000_0000_0000) % 0x8000_0000_0000_0000 == low && (low + 0x8000_0000_0000_0000) % 512 == low % 512;
  }

  /** The macros as they are written, on 64-bit words. */
  function BbOffset(x: bv64): bv64 {
    (x & 0x7FFF_FFFF_FFFF_FE00) >> 9
  }

  function BbLen(x: bv64): bv64 {
    (x & 0x1FF) + 1
  }

  predicate BbAck(x: bv64) {
    x & 0x8000_0000_0000_0000 != 0
  }

  function BbMake(a: bv64, l: bv64, ack: bool): bv64 {
    (a << 9) | (l - 1) | (if ack then 0x8000_0000_0000_0000 else 0)
  }

  lemma MacrosRoundTrip(a: bv64, l: bv64, ack: bool)
    requires a < 0x40_0000_0000_0000 && 1 <= l <= 512
    ensures BbOffset(BbMake(a, l, ack)) == a && BbLen(BbMake(a, l, ack)) == l && BbAck(BbMake(a, l, ack)) == ack
  {
  }

  /** For a range the table can hold, BB_MAKE is the sum that Pack is: `high` is the start times 512 and
      `low` the length less one. */
  lemma MakeIsPack(a: bv64, l: bv64, ack: bool, high: bv64, low: bv64)
    requires a < 0x40_0000_0000_0000 && 1 <= l <= 512 && high == a * 512 && low == l - 1
    ensures BbMake(a, l, ack) == high + low + if ack then 0x8000_0000_0000_0000 else 0
  {
    ShiftIsTimes(a);
    FieldsApart(a, l, high, low);
    MakeIsSum(a, l, ack, high, low);
  }

  lemma ShiftIsTimes(a: bv64)
    ensures a << 9 == a * 512
  {
  }

  lemma FieldsApart(a: bv64, l: bv64, high: bv64, low: bv64)
    requires a < 0x40_0000_0000_0000 && 1 <= l <= 512 && high == a << 9 && low == l - 1
    ensures high & 0x1FF == 0 && low < 512 && high + low < 0x8000_0000_0000_0000
  {
  }

  lemma MakeIsSum(a: bv64, l: bv64, ack: bool, high: bv64, low: bv64)
    requires high == a << 9 && low == l - 1
    requires high & 0x1FF == 0 && low < 512 && high + low < 0x8000_0000_0000_0000
    ensures BbMake(a, l, ack) == high + low + if ack then 0x8000_0000_0000_0000 else 0
  {
    MakeIsOr(a, l, ack, high, low);
    OrIsSum(high, low, ack);
  }

  lemma OrIsSum(x: bv64, y: bv64, ack: bool)
    requires x & 0x1FF == 0 && y < 512 && x + y < 0x8000_0000_0000_0000
    ensures x | y | (if ack then 0x8000_0000_0000_0000 else 0) == x + y + if ack then 0x8000_0000_0000_0000 else 0
  {
    LowIsSum(x, y, x | y);
    TopIsSum(x | y, ack);
  }

  lemma MakeIsOr(a: bv64, l: bv64, ack: bool, high: bv64, low: bv64)
    requires high == a << 9 && low == l - 1
    ensures BbMake(a, l, ack) == high | low | (if ack then 0x8000_0000_0000_0000 else 0)
  {
  }

  lemma LowIsSum(x: bv64, y: bv64, u: bv64)
    requires x & 0x1FF == 0 && y < 512 && u == x | y
    ensures u == x + y
  {
  }

  lemma TopIsSum(u: bv64, ack: bool)
    requires u < 0x8000_0000_0000_0000
    ensures u | (if ack then 0x8000_0000_0000_0000 else 0) == u + if ack then 0x8000_0000_0000_0000 else 0
  {
  }

  /** BB_OFFSET, BB_LEN and BB_ACK are the quotient, remainder and comparison that Unpack is. */
  lemma ReadIsUnpack(x: bv64)
    ensures BbOffset(x) == x % 0x8000_0000_0000_0000 / 512
    ensures BbLen(x) == x % 512 + 1
    ensures BbAck(x) <==> x >= 0x8000_0000_0000_0000
  {
  }

  /** A length of 1 - m fills the word with ones from bit 9 on, which is what Made says. */
  lemma MakeIsMade(a: bv64, m: bv64, ack: bool)
    requires a < 0x40_0000_0000_0000 && 1 <= m <= 512
    ensures var x := BbMake(a, 1 - m, ack); BbOffset(x) == 0x3F_FFFF_FFFF_FFFF && BbAck(x) && BbLen(x) == 512 - m + 1
  {
  }

  lemma MadeIs(start: nat, m: int, ack: bool)
    requires 1 <= m <= 512
    ensures Made(start, 1 - m, ack) == Range(0x3F_FFFF_FFFF_FFFF, 512 - m + 1, true)
  {
    assert LowBits(-m) == LowBits(512 - m) == 512 - m;
  }

  // ---------------------------------------------------------------- tables

  type Table = seq<Range>

  predicate Ok(r: Range) {
    1 <= r.len <= 512 && End(r) <= LIMIT
  }

  predicate Ordered(t: Table, i: nat, j: nat)
    requires i < |t| && j < |t|
  {
    End(t[i]) <= t[j].start
  }

  /** Sorted, disjoint, and every length in 1..512. */
  predicate WellFormed(t: Table) {
    && (forall i :: 0 <= i < |t| ==> Ok(t[i]))
    && (forall i, j :: 0 <= i < j < |t| ==> Ordered(t, i, j))
  }

  predicate In(r: Range, x: nat) {
    r.start <= x < End(r)
  }

  predicate Covered(t: Table, x: nat) {
    exists i :: 0 <= i < |t| && In(t[i], x)
  }

  /** Sector `x` is recorded with acknowledgement `ack`. */
  predicate Has(t: Table, x: nat, ack: bool) {
    exists i :: 0 <= i < |t| && In(t[i], x) && t[i].ack == ack
  }

  /** `t` with its ranges from `p` to `q` replaced. */
  function Spliced(t: Table, p: nat, q: nat, mid: Table): Table
    requires p <= q <= |t|
  {
    t[..p] + mid + t[q..]
  }

  lemma CoveredConcat(a: Table, b: Table, x: nat)
    ensures Covered(a + b, x) <==> Covered(a, x) || Covered(b, x)
  {
    if Covered(a, x) {
      var i :| 0 <= i < |a| && In(a[i], x);
      assert In((a + b)[i], x);
    }
    if Covered(b, x) {
      var i :| 0 <= i < |b| && In(b[i], x);
      assert In((a + b)[|a| + i], x);
    }
  }

  lemma SplicedCovers(t: Table, p: nat, q: nat, mid: Table, x: nat)
    requires p <= q <= |t|
    ensures Covered(Spliced(t, p, q, mid), x) <==> Covered(t[..p], x) || Covered(mid, x) || Covered(t[q..], x)
    ensures Covered(t, x) <==> Covered(t[..p], x) || Covered(t[p..q], x) || Covered(t[q..], x)
  {
    CoveredConcat(t[..p] + mid, t[q..], x);
    CoveredConcat(t[..p], mid, x);
    CoveredConcat(t[..p] + t[p..q], t[q..], x);
    CoveredConcat(t[..p], t[p..q], x);
    assert t == t[..p] + t[p..q] + t[q..];
  }

  lemma SplicedHas(t: Table, p: nat, q: nat, mid: Table, i: nat, x: nat)
    requires p <= q <= |t| && i < |mid| && In(mid[i], x)
    ensures Has(Spliced(t, p, q, mid), x, mid[i].ack)
  {
    assert Spliced(t, p, q, mid)[p + i] == mid[i];
  }

  lemma ConcatForms(a: Table, b: Table)
    requires WellFormed(a) && WellFormed(b) && (a != [] && b != [] ==> End(a[|a| - 1]) <= b[0].start)
    ensures WellFormed(a + b)
  {
    var c := a + b;
    forall i, j | 0 <= i < j < |c| ensures Ordered(c, i, j) {
      if j < |a| {
        assert Ordered(a, i, j);
      } else if |a| <= i {
        assert Ordered(b, i - |a|, j - |a|);
      } else {
        assert i < |a| - 1 ==> Ordered(a, i, |a| - 1) && Ok(a[|a| - 1]);
        assert j > |a| ==> Ordered(b, 0, j - |a|) && Ok(b[0]);
      }
    }
  }

  lemma SliceForms(t: Table, p: nat, q: nat)
    requires WellFormed(t) && p <= q <= |t|
    ensures WellFormed(t[p..q])
  {
    var c := t[p..q];
    forall i | 0 <= i < |c| ensures Ok(c[i]) {
      assert Ok(t[p + i]);
    }
    forall i, j | 0 <= i < j < |c| ensures Ordered(c, i, j) {
      assert Ordered(t, p + i, p + j);
    }
  }

  lemma PartsForm(a: Table, b: Table)
    requires WellFormed(a + b)
    ensures WellFormed(a) && WellFormed(b)
    ensures forall i, j :: 0 <= i < |a| && 0 <= j < |b| ==> End(a[i]) <= b[j].start
  {
    var c := a + b;
    SliceForms(c, 0, |a|);
    SliceForms(c, |a|, |c|);
    assert c[0..|a|] == a && c[|a|..|c|] == b;
    forall i, j | 0 <= i < |a| && 0 <= j < |b| ensures End(a[i]) <= b[j].start {
      assert Ordered(c, i, |a| + j);
    }
  }

  /** A splice is well formed when it is at its seams. */
  lemma SplicedForms(t: Table, p: nat, q: nat, mid: Table)
    requires WellFormed(t) && p <= q <= |t| && WellFormed(mid) && mid != []
    requires p > 0 ==> End(t[p - 1]) <= mid[0].start
    requires q < |t| ==> End(mid[|mid| - 1]) <= t[q].start
    ensures WellFormed(Spliced(t, p, q, mid))
  {
    SliceForms(t, 0, p);
    SliceForms(t, q, |t|);
    assert t[0..p] == t[..p] && t[q..|t|] == t[q..];
    ConcatForms(t[..p], mid);
    ConcatForms(t[..p] + mid, t[q..]);
  }

  lemma SplicedParts(t: Table, p: nat, q: nat, mid: Table)
    requires p <= q <= |t| && WellFormed(Spliced(t, p, q, mid))
    ensures WellFormed(mid)
    ensures forall i :: 0 <= i < |mid| && q < |t| ==> End(mid[i]) <= t[q].start
  {
    PartsForm(t[..p] + mid, t[q..]);
    PartsForm(t[..p], mid);
    forall i | 0 <= i < |mid| && q < |t| ensures End(mid[i]) <= t[q].start {
      assert (t[..p] + mid)[p + i] == mid[i] && t[q..][0] == t[q];
    }
  }

  // ---------------------------------------------------------------- badblocks_set

  /** The ranges before `k` start before `x`, the others do not: what the binary searches find. */
  predicate Before(t: Table, k: nat, x: nat) {
    && k <= |t|
    && (forall i :: 0 <= i < k ==> t[i].start < x)
    && (forall i :: k <= i < |t| ==> t[i].start >= x)
  }

  /** Ranges `p` to `q` of the table are replaced by `mid`. */
  datatype Patch = Patch(p: nat, q: nat, mid: Table)

  /** The final loop inserts each chunk at the same place, before the previous one. */
  function Chunks(s: nat, m: nat, ack: bool): Table
    decreases m
  {
    if m == 0 then []
    else if m <= 512 then [Range(s, m, ack)]
    else Chunks(s + 512, m - 512, ack) + [Range(s, 512, ack)]
  }

  /** The attempt to combine `r` with the range after it. */
  function Combine(t: Table, p: nat, pre: Table, i: nat, r: Range): Patch {
    if i < |t| && t[i].start <= End(r) && r.len + t[i].len - (End(r) - t[i].start) < 512
    then Patch(p, i + 1, pre + [Made(r.start, r.len + t[i].len - (End(r) - t[i].start), r.ack && t[i].ack)])
    else Patch(p, i, pre + [r])
  }

  /** Placing [s, s + m), m > 0, before or into range `k`. */
  function PlaceRest(t: Table, p: nat, pre: Table, k: nat, s: nat, m: nat, ack: bool): Patch {
    if k < |t| && t[k].start <= s + m then
      var full := End(t[k]) <= s + m;
      var e := Max(End(t[k]), s + m);
      var ack2 := if full then ack else t[k].ack && ack;
      if e - s <= 512 then Combine(t, p, pre, k + 1, Made(s, e - s, ack2))
      else Patch(p, k + 1, pre + [Range(s, 512, ack2)] + Chunks(s + 512, e - s - 512, ack))
    else Patch(p, k, pre + Chunks(s, m, ack))
  }

  /** What badblocks_set does to a table in which `k` ranges start at or before `s`. */
  function Plan(t: Table, k: nat, s: nat, n: nat, ack: bool): Patch
    requires k <= |t|
  {
    if k > 0 && End(t[k - 1]) >= s then
      var lo := t[k - 1];
      var ack1 := if s == lo.start && s + n >= End(lo) then ack else lo.ack && ack;
      var e := Max(End(lo), s + n);
      if e - lo.start <= 512 then Combine(t, k - 1, [], k, Made(lo.start, e - lo.start, ack1))
      else
        var lo' := if lo.len != 512 then Range(lo.start, 512, ack1) else lo;
        PlaceRest(t, k - 1, [lo'], k, lo.start + 512, e - lo.start - 512, ack)
    else PlaceRest(t, k, [], k, s, n, ack)
  }

  /** Every length badblocks_set combines ranges to is above -512, so Made says what BB_MAKE does with it. */
  lemma CombinedLengths(t: Table, k: nat, s: nat, i: nat)
    requires WellFormed(t) && Before(t, k, s + 1) && k <= i < |t|
    ensures End(t[i]) - s >= 1
    ensures k > 0 ==> End(t[i]) - t[k - 1].start >= 1 && End(t[i]) - (t[k - 1].start + 512) > -512
  {
    assert Ok(t[i]) && (k > 0 ==> Ordered(t, k - 1, i) && Ok(t[k - 1]));
  }

  /** The table is well formed and covers what it covered before and the new range, nothing else. */
  ghost predicate Exact(t: Table, t': Table, s: nat, n: nat) {
    WellFormed(t') && forall x: nat :: Covered(t', x) <==> Covered(t, x) || s <= x < s + n
  }

  /** The ranges from `i` on cover [from, to) without a gap. */
  predicate Filled(t: Table, i: nat, from: nat, to: nat)
    decreases |t| - i
  {
    from >= to || (i < |t| && t[i].start <= from && Filled(t, i + 1, End(t[i]), to))
  }

  /** Combining [a, e) with range `i` loses nothing: there is no overlap, or the two fit together and
      what is cut off the end of [a, e) is recorded by the ranges that follow. */
  predicate CleanEnd(t: Table, i: nat, a: nat, e: nat) {
    || i >= |t|
    || t[i].start >= e
    || (a < End(t[i]) < a + 512 && Filled(t, i + 1, End(t[i]), e))
  }

  predicate CleanRest(t: Table, k: nat, s: nat, m: nat) {
    if k < |t| && t[k].start <= s + m then
      var e := Max(End(t[k]), s + m);
      if e - s <= 512 then CleanEnd(t, k + 1, s, e)
      else e - s <= 1024 && (k + 1 < |t| ==> t[k + 1].start >= e)
    else m <= 512
  }

  /** When badblocks_set does what it is for. */
  predicate Clean(t: Table, k: nat, s: nat, n: nat)
    requires k <= |t|
  {
    if k > 0 && End(t[k - 1]) >= s then
      var a := t[k - 1].start;
      var e := Max(End(t[k - 1]), s + n);
      if e - a <= 512 then CleanEnd(t, k, a, e) else CleanRest(t, k, a + 512, e - a - 512)
    else CleanRest(t, k, s, n)
  }

  // ---------------------------------------------------------------- exactness

  /** Ranges of length 1..512, end to end, that cover exactly [a, e). */
  predicate Contig(mid: Table, a: nat, e: nat) {
    && mid != [] && End(mid[|mid| - 1]) == e && 1 <= mid[|mid| - 1].len <= 512
    && if |mid| == 1 then mid[0].start == a else Contig(mid[..|mid| - 1], a, mid[|mid| - 1].start)
  }

  lemma {:induction false} ContigForms(mid: Table, a: nat, e: nat)
    requires Contig(mid, a, e) && e <= LIMIT
    ensures WellFormed(mid) && mid[0].start == a && a < e
  {
    if |mid| > 1 {
      var front, last := mid[..|mid| - 1], mid[|mid| - 1];
      ContigForms(front, a, last.start);
      ConcatForms(front, [last]);
      assert mid == front + [last];
    }
  }

  lemma {:induction false} ContigCovers(mid: Table, a: nat, e: nat, x: nat)
    requires Contig(mid, a, e)
    ensures a < e && (Covered(mid, x) <==> a <= x < e)
  {
    var front, last := mid[..|mid| - 1], mid[|mid| - 1];
    assert mid == front + [last];
    CoveredConcat(front, [last], x);
    assert Covered([last], x) <==> In(last, x) by {
      assert In([last][0], x) <==> In(last, x);
    }
    if |mid| > 1 {
      ContigCovers(front, a, last.start, x);
    } else {
      assert front == [];
    }
  }

  /** Ranges `p` to `q` lie in [a, e), which holds nothing but them and the new range. */
  ghost predicate Within(t: Table, p: nat, q: nat, a: nat, e: nat, s: nat, n: nat) {
    && p <= q <= |t|
    && (p > 0 ==> End(t[p - 1]) <= a)
    && (forall j :: p <= j < q ==> a <= t[j].start && End(t[j]) <= e)
    && (forall x: nat :: a <= x < e ==> Covered(t[p..q], x) || s <= x < s + n)
    && a <= s && e <= LIMIT
  }

  lemma WithinCovers(t: Table, p: nat, q: nat, a: nat, e: nat, s: nat, n: nat, x: nat)
    requires Within(t, p, q, a, e, s, n) && Covered(t[p..q], x)
    ensures a <= x < e
  {
    var i :| 0 <= i < |t[p..q]| && In(t[p..q][i], x);
    assert t[p..q][i] == t[p + i];
  }

  /** Replacing ranges by ones that cover [a, e) is exact, if what the new range has past `e` is
      covered by the ranges that stay. */
  lemma ReplaceExact(t: Table, p: nat, q: nat, mid: Table, a: nat, e: nat, s: nat, n: nat)
    requires WellFormed(t) && Within(t, p, q, a, e, s, n) && Contig(mid, a, e) && (q < |t| ==> e <= t[q].start)
    requires forall x: nat :: e <= x < s + n ==> Covered(t[q..], x)
    ensures Exact(t, Spliced(t, p, q, mid), s, n)
  {
    ContigForms(mid, a, e);
    SplicedForms(t, p, q, mid);
    forall x: nat ensures Covered(Spliced(t, p, q, mid), x) <==> Covered(t, x) || s <= x < s + n {
      SplicedCovers(t, p, q, mid, x);
      ContigCovers(mid, a, e, x);
      if Covered(t[p..q], x) {
        WithinCovers(t, p, q, a, e, s, n, x);
      }
    }
  }

  lemma {:induction false} FilledCovers(t: Table, i: nat, from: nat, to: nat, x: nat)
    requires Filled(t, i, from, to) && from <= x < to && i <= |t|
    ensures Covered(t[i..], x)
    decreases |t| - i
  {
    assert t[i..] == [t[i]] + t[i + 1..];
    CoveredConcat([t[i]], t[i + 1..], x);
    if x < End(t[i]) {
      assert In([t[i]][0], x);
    } else {
      FilledCovers(t, i + 1, End(t[i]), to, x);
    }
  }

  lemma FilledRest(t: Table, i: nat, from: nat, to: nat, e: nat)
    requires Filled(t, i, from, to) && i <= |t| && e <= to
    ensures forall x: nat :: from <= x < e ==> Covered(t[i..], x)
  {
    forall x: nat | from <= x < e ensures Covered(t[i..], x) {
      FilledCovers(t, i, from, to, x);
    }
  }

  /** A gap, when the ranges do not fill the interval. */
  lemma {:induction false} NotFilled(t: Table, i: nat, from: nat, to: nat) returns (x: nat)
    requires WellFormed(t) && i <= |t| && !Filled(t, i, from, to) && (i < |t| ==> from <= t[i].start)
    ensures from <= x < to && !Covered(t[i..], x)
    decreases |t| - i
  {
    if i < |t| && t[i].start <= from {
      assert i + 1 < |t| ==> Ordered(t, i, i + 1);
      assert Ok(t[i]);
      x := NotFilled(t, i + 1, End(t[i]), to);
      assert t[i..] == [t[i]] + t[i + 1..];
      CoveredConcat([t[i]], t[i + 1..], x);
    } else {
      x := from;
      forall j | 0 <= j < |t[i..]| ensures !In(t[i..][j], x) {
        assert Ok(t[i]) && (j > 0 ==> Ordered(t, i, i + j));
      }
    }
  }

  function Applied(t: Table, plan: Patch): Table {
    if plan.p <= plan.q <= |t| then Spliced(t, plan.p, plan.q, plan.mid) else t
  }

  lemma WithinGrows(t: Table, p: nat, i: nat, a: nat, e: nat, s: nat, n: nat)
    requires WellFormed(t) && Within(t, p, i, a, e, s, n) && i < |t| && s < t[i].start <= e
    ensures Within(t, p, i + 1, a, End(t[i]), s, n)
  {
    assert Ok(t[i]);
    forall j | p <= j < i ensures a <= t[j].start && End(t[j]) <= End(t[i]) {
      assert Ordered(t, j, i);
    }
    var grown := t[p..i + 1];
    forall x: nat | a <= x < End(t[i]) ensures Covered(grown, x) || s <= x < s + n {
      assert grown == t[p..i] + [t[i]];
      CoveredConcat(t[p..i], [t[i]], x);
      if x >= e {
        assert In([t[i]][0], x);
      }
    }
  }

  lemma ContigAgain(pre: Table, r: Range, r': Range, a: nat)
    requires Contig(pre + [r], a, End(r)) && r'.start == r.start && 1 <= r'.len <= 512
    ensures Contig(pre + [r'], a, End(r'))
  {
    assert (pre + [r])[..|pre|] == pre && (pre + [r'])[..|pre|] == pre;
  }

  lemma EarlierEnds(t: Table, p: nat, a: nat, x: nat)
    requires WellFormed(t) && p <= |t| && (p > 0 ==> End(t[p - 1]) <= a) && a <= x
    ensures !Covered(t[..p], x)
  {
    forall j | 0 <= j < |t[..p]| ensures !In(t[..p][j], x) {
      assert t[..p][j] == t[j] && (j < p - 1 ==> Ordered(t, j, p - 1)) && Ok(t[p - 1]);
    }
  }

  /** No sector as high as LIMIT is covered. */
  lemma LimitFree(t: Table)
    requires WellFormed(t)
    ensures !Covered(t, LIMIT)
  {
    forall j | 0 <= j < |t| ensures !In(t[j], LIMIT) {
      assert Ok(t[j]);
    }
  }

  /** The patch covers [a, e) in place of ranges that lie in it, and touches no other range. */
  ghost predicate Fits(t: Table, plan: Patch, a: nat, e: nat, s: nat, n: nat) {
    && Within(t, plan.p, plan.q, a, e, s, n) && Contig(plan.mid, a, e) && (plan.q < |t| ==> e <= t[plan.q].start)
  }

  lemma FitsExact(t: Table, plan: Patch, a: nat, e: nat, to: nat, s: nat, n: nat)
    requires WellFormed(t) && Fits(t, plan, a, e, s, n) && Filled(t, plan.q, e, to) && s + n <= to
    ensures Exact(t, Applied(t, plan), s, n)
  {
    FilledRest(t, plan.q, e, to, s + n);
    ReplaceExact(t, plan.p, plan.q, plan.mid, a, e, s, n);
  }

  /** What the attempt to combine starts from: [r.start, End(r)) ends the new contiguous stretch. */
  ghost predicate Ready(t: Table, p: nat, pre: Table, i: nat, r: Range, a: nat, s: nat, n: nat) {
    && WellFormed(t) && Within(t, p, i, a, End(r), s, n) && Contig(pre + [r], a, End(r))
    && s + n <= End(r) && (i < |t| ==> s < t[i].start)
    && (i < |t| && t[i].start < End(r) ==> End(r) == s + n)
  }

  /** The patch that joins `r` and range `i`. */
  lemma Joined(t: Table, p: nat, pre: Table, i: nat, r: Range, a: nat, s: nat, n: nat)
    requires Ready(t, p, pre, i, r, a, s, n) && i < |t| && t[i].start <= End(r) && r.start < End(t[i]) < r.start + 512
    ensures var plan := Combine(t, p, pre, i, r);
      plan.p == p && plan.q == i + 1 && Fits(t, plan, a, End(t[i]), s, n)
  {
    NextStarts(t, i);
    WithinGrows(t, p, i, a, End(r), s, n);
    ContigAgain(pre, r, Range(r.start, End(t[i]) - r.start, r.ack && t[i].ack), a);
  }

  lemma NextStarts(t: Table, i: nat)
    requires WellFormed(t) && i < |t|
    ensures i + 1 < |t| ==> End(t[i]) <= t[i + 1].start
  {
    assert i + 1 < |t| ==> Ordered(t, i, i + 1);
  }

  lemma JoinedExact(t: Table, p: nat, pre: Table, i: nat, r: Range, a: nat, s: nat, n: nat)
    requires Ready(t, p, pre, i, r, a, s, n) && i < |t| && t[i].start <= End(r) && r.start < End(t[i]) < r.start + 512
    requires Filled(t, i + 1, End(t[i]), End(r))
    ensures Exact(t, Applied(t, Combine(t, p, pre, i, r)), s, n)
  {
    Joined(t, p, pre, i, r, a, s, n);
    FitsExact(t, Combine(t, p, pre, i, r), a, End(t[i]), End(r), s, n);
  }

  lemma JoinedLoses(t: Table, p: nat, pre: Table, i: nat, r: Range, a: nat, s: nat, n: nat)
    requires Ready(t, p, pre, i, r, a, s, n) && i < |t| && t[i].start < End(r) && r.start < End(t[i]) < r.start + 512
    requires !Filled(t, i + 1, End(t[i]), End(r))
    ensures !Exact(t, Applied(t, Combine(t, p, pre, i, r)), s, n)
  {
    Joined(t, p, pre, i, r, a, s, n);
    NextStarts(t, i);
    var mid := Combine(t, p, pre, i, r).mid;
    var x := NotFilled(t, i + 1, End(t[i]), End(r));
    SplicedCovers(t, p, i + 1, mid, x);
    ContigCovers(mid, a, End(t[i]), x);
    assert Ok(t[i]);
    EarlierEnds(t, p, a, x);
  }

  lemma CombineApart(t: Table, p: nat, pre: Table, i: nat, r: Range, a: nat, s: nat, n: nat)
    requires Ready(t, p, pre, i, r, a, s, n) && (i < |t| ==> t[i].start >= End(r))
    ensures Exact(t, Applied(t, Combine(t, p, pre, i, r)), s, n)
  {
    if i < |t| && t[i].start == End(r) && r.len + t[i].len < 512 {
      assert Ok(t[i]);
      JoinedExact(t, p, pre, i, r, a, s, n);
    } else {
      ReplaceExact(t, p, i, pre + [r], a, End(r), s, n);
    }
  }

  lemma CombineTooLong(t: Table, p: nat, pre: Table, i: nat, r: Range, a: nat, s: nat, n: nat)
    requires Ready(t, p, pre, i, r, a, s, n) && i < |t| && t[i].start < End(r) && End(t[i]) - r.start >= 512
    ensures !Exact(t, Applied(t, Combine(t, p, pre, i, r)), s, n)
  {
    var mid := pre + [r];
    assert mid[|pre|] == r;
    if WellFormed(Spliced(t, p, i, mid)) {
      SplicedParts(t, p, i, mid);
    }
  }

  lemma CombineWraps(t: Table, p: nat, pre: Table, i: nat, r: Range, a: nat, s: nat, n: nat)
    requires Ready(t, p, pre, i, r, a, s, n) && i < |t| && t[i].start < End(r) && End(t[i]) <= r.start
    ensures !Exact(t, Applied(t, Combine(t, p, pre, i, r)), s, n)
  {
    var mid := Combine(t, p, pre, i, r).mid;
    assert In(mid[|pre|], LIMIT);
    SplicedCovers(t, p, i + 1, mid, LIMIT);
    LimitFree(t);
  }

  lemma CombineExact(t: Table, p: nat, pre: Table, i: nat, r: Range, a: nat, s: nat, n: nat)
    requires Ready(t, p, pre, i, r, a, s, n)
    ensures Exact(t, Applied(t, Combine(t, p, pre, i, r)), s, n) == CleanEnd(t, i, r.start, End(r))
  {
    if i >= |t| || t[i].start >= End(r) {
      CombineApart(t, p, pre, i, r, a, s, n);
    } else if End(t[i]) - r.start >= 512 {
      CombineTooLong(t, p, pre, i, r, a, s, n);
    } else if End(t[i]) <= r.start {
      CombineWraps(t, p, pre, i, r, a, s, n);
    } else if Filled(t, i + 1, End(t[i]), End(r)) {
      JoinedExact(t, p, pre, i, r, a, s, n);
    } else {
      JoinedLoses(t, p, pre, i, r, a, s, n);
    }
  }

  lemma WithinMax(t: Table, p: nat, i: nat, a: nat, e: nat, s: nat, n: nat)
    requires WellFormed(t) && Within(t, p, i, a, e, s, n) && i < |t| && s < t[i].start <= e
    ensures Within(t, p, i + 1, a, Max(End(t[i]), e), s, n)
  {
    WithinGrows(t, p, i, a, e, s, n);
    var grown := t[p..i + 1];
    forall x: nat | a <= x < Max(End(t[i]), e) ensures Covered(grown, x) || s <= x < s + n {
      assert grown == t[p..i] + [t[i]];
      CoveredConcat(t[p..i], [t[i]], x);
    }
  }

  lemma {:induction false} ChunksStart(s: nat, m: nat, ack: bool)
    requires m > 0
    ensures Chunks(s, m, ack) != [] && Chunks(s, m, ack)[0].start >= s
    decreases m
  {
    if m > 512 {
      ChunksStart(s + 512, m - 512, ack);
    }
  }

  /** Two chunks or more are stored in the wrong order. */
  lemma ChunksDisorder(s: nat, m: nat, ack: bool, pre: Table)
    requires m > 512
    ensures !WellFormed(pre + Chunks(s, m, ack))
  {
    ChunksStart(s + 512, m - 512, ack);
    var later, first := Chunks(s + 512, m - 512, ack), [Range(s, 512, ack)];
    assert End(later[0]) > first[0].start;
    if WellFormed(pre + Chunks(s, m, ack)) {
      PartsForm(pre, Chunks(s, m, ack));
      PartsForm(later, first);
    }
  }

  lemma NotFormed(t: Table, p: nat, q: nat, mid: Table, s: nat, n: nat)
    requires p <= q <= |t| && mid != []
    requires !WellFormed(mid) || (q < |t| && t[q].start < End(mid[|mid| - 1]))
    ensures !Exact(t, Spliced(t, p, q, mid), s, n)
  {
    if WellFormed(Spliced(t, p, q, mid)) {
      SplicedParts(t, p, q, mid);
    }
  }

  /** What PlaceRest starts from: `pre` covers [a, s1), and the new range ends with [s1, s1 + m). */
  ghost predicate RestReady(t: Table, p: nat, pre: Table, k: nat, s1: nat, m: nat, a: nat, s: nat, n: nat) {
    && WellFormed(t) && Within(t, p, k, a, s + n, s, n) && s1 + m == s + n && m > 0
    && (if pre == [] then s1 == a else Contig(pre, a, s1))
    && (k < |t| ==> s < t[k].start)
  }

  lemma ContigMore(pre: Table, r: Range, a: nat)
    requires (if pre == [] then r.start == a else Contig(pre, a, r.start)) && 1 <= r.len <= 512
    ensures Contig(pre + [r], a, End(r))
  {
    assert (pre + [r])[..|pre|] == pre;
  }

  /** Nothing to merge with: one new range, if it is not too long. */
  lemma AloneExact(t: Table, p: nat, pre: Table, k: nat, s1: nat, m: nat, a: nat, s: nat, n: nat, ack: bool)
    requires RestReady(t, p, pre, k, s1, m, a, s, n) && (k < |t| ==> t[k].start > s1 + m)
    ensures Exact(t, Applied(t, Patch(p, k, pre + Chunks(s1, m, ack))), s, n) == (m <= 512)
  {
    if m <= 512 {
      ContigMore(pre, Range(s1, m, ack), a);
      FitsExact(t, Patch(p, k, pre + Chunks(s1, m, ack)), a, s + n, s + n, s, n);
    } else {
      ChunksDisorder(s1, m, ack, pre);
      NotFormed(t, p, k, pre + Chunks(s1, m, ack), s, n);
    }
  }

  lemma IntoExact(t: Table, p: nat, pre: Table, k: nat, s1: nat, m: nat, a: nat, s: nat, n: nat, r: Range)
    requires RestReady(t, p, pre, k, s1, m, a, s, n) && k < |t| && t[k].start <= s1 + m
    requires r.start == s1 && End(r) == Max(End(t[k]), s1 + m) && r.len <= 512
    ensures Exact(t, Applied(t, Combine(t, p, pre, k + 1, r)), s, n) == CleanEnd(t, k + 1, s1, End(r))
  {
    WithinMax(t, p, k, a, s + n, s, n);
    ContigMore(pre, r, a);
    NextStarts(t, k);
    assert Ok(t[k]);
    CombineExact(t, p, pre, k + 1, r, a, s, n);
  }

  lemma SpillFits(t: Table, p: nat, pre: Table, k: nat, s1: nat, m: nat, a: nat, s: nat, n: nat, r: Range, c: Range)
    requires RestReady(t, p, pre, k, s1, m, a, s, n) && k < |t| && t[k].start <= s1 + m
    requires r.start == s1 && r.len == 512 && c.start == s1 + 512 && End(c) == Max(End(t[k]), s1 + m) && 1 <= c.len <= 512
    requires k + 1 < |t| ==> t[k + 1].start >= End(c)
    ensures Exact(t, Applied(t, Patch(p, k + 1, pre + [r] + [c])), s, n)
  {
    WithinMax(t, p, k, a, s + n, s, n);
    ContigMore(pre, r, a);
    ContigMore(pre + [r], c, a);
    FitsExact(t, Patch(p, k + 1, pre + [r] + [c]), a, End(c), End(c), s, n);
  }

  lemma SpillExact(t: Table, p: nat, pre: Table, k: nat, s1: nat, m: nat, a: nat, s: nat, n: nat, r: Range, e: nat, ack: bool)
    requires RestReady(t, p, pre, k, s1, m, a, s, n) && k < |t| && t[k].start <= s1 + m
    requires r.start == s1 && r.len == 512 && e == Max(End(t[k]), s1 + m) > s1 + 512
    ensures Exact(t, Applied(t, Patch(p, k + 1, pre + [r] + Chunks(s1 + 512, e - s1 - 512, ack))), s, n) == (e - s1 <= 1024 && (k + 1 < |t| ==> t[k + 1].start >= e))
  {
    var rest := Chunks(s1 + 512, e - s1 - 512, ack);
    if e - s1 > 1024 {
      ChunksDisorder(s1 + 512, e - s1 - 512, ack, pre + [r]);
      NotFormed(t, p, k + 1, pre + [r] + rest, s, n);
    } else if k + 1 < |t| && t[k + 1].start < e {
      NotFormed(t, p, k + 1, pre + [r] + rest, s, n);
    } else {
      SpillFits(t, p, pre, k, s1, m, a, s, n, r, Range(s1 + 512, e - s1 - 512, ack));
    }
  }

  lemma RestExact(t: Table, p: nat, pre: Table, k: nat, s1: nat, m: nat, a: nat, s: nat, n: nat, ack: bool)
    requires RestReady(t, p, pre, k, s1, m, a, s, n)
    ensures Exact(t, Applied(t, PlaceRest(t, p, pre, k, s1, m, ack)), s, n) == CleanRest(t, k, s1, m)
  {
    if k < |t| && t[k].start <= s1 + m {
      var ack2 := if End(t[k]) <= s1 + m then ack else t[k].ack && ack;
      var e := Max(End(t[k]), s1 + m);
      PlaceInto(t, p, pre, k, s1, m, ack, ack2, e);
      if e - s1 <= 512 {
        IntoExact(t, p, pre, k, s1, m, a, s, n, Range(s1, e - s1, ack2));
      } else {
        SpillExact(t, p, pre, k, s1, m, a, s, n, Range(s1, 512, ack2), e, ack);
      }
    } else {
      PlaceAlone(t, p, pre, k, s1, m, ack);
      AloneExact(t, p, pre, k, s1, m, a, s, n, ack);
    }
  }

  lemma PlaceInto(t: Table, p: nat, pre: Table, k: nat, s: nat, m: nat, ack: bool, ack2: bool, e: nat)
    requires m > 0 && k < |t| && t[k].start <= s + m && e == Max(End(t[k]), s + m)
    requires ack2 == if End(t[k]) <= s + m then ack else t[k].ack && ack
    ensures e - s <= 512 ==>
      && PlaceRest(t, p, pre, k, s, m, ack) == Combine(t, p, pre, k + 1, Range(s, e - s, ack2))
      && CleanRest(t, k, s, m) == CleanEnd(t, k + 1, s, e)
    ensures e - s > 512 ==>
      && PlaceRest(t, p, pre, k, s, m, ack) == Patch(p, k + 1, pre + [Range(s, 512, ack2)] + Chunks(s + 512, e - s - 512, ack))
      && CleanRest(t, k, s, m) == (e - s <= 1024 && (k + 1 < |t| ==> t[k + 1].start >= e))
  {
  }

  lemma PlaceAlone(t: Table, p: nat, pre: Table, k: nat, s: nat, m: nat, ack: bool)
    requires k < |t| ==> t[k].start > s + m
    ensures PlaceRest(t, p, pre, k, s, m, ack) == Patch(p, k, pre + Chunks(s, m, ack)) && CleanRest(t, k, s, m) == (m <= 512)
  {
  }

  lemma StartsInside(t: Table, k: nat, s: nat, n: nat, e: nat)
    requires WellFormed(t) && 0 < k <= |t| && t[k - 1].start <= s <= End(t[k - 1])
    requires e == Max(End(t[k - 1]), s + n) && s + n <= LIMIT
    ensures Within(t, k - 1, k, t[k - 1].start, e, s, n)
  {
    assert Ok(t[k - 1]);
    assert k > 1 ==> Ordered(t, k - 2, k - 1);
    var lo := t[k - 1..k];
    forall x: nat | t[k - 1].start <= x < e ensures Covered(lo, x) || s <= x < s + n {
      assert lo[0] == t[k - 1];
      if x < End(t[k - 1]) {
        assert In(lo[0], x);
      }
    }
  }

  /** badblocks_set, when there is room, records exactly the new range, in a well-formed table, if
      and only if the call is Clean. */
  lemma SetExact(t: Table, k: nat, s: nat, n: nat, ack: bool)
    requires WellFormed(t) && Before(t, k, s + 1) && n > 0 && s + n <= LIMIT
    ensures Exact(t, Applied(t, Plan(t, k, s, n, ack)), s, n) == Clean(t, k, s, n)
  {
    if k > 0 && End(t[k - 1]) >= s {
      SetIntoExact(t, k, s, n, ack);
    } else {
      assert t[k..k] == [];
      RestExact(t, k, [], k, s, n, s, s, n, ack);
    }
  }

  lemma SetIntoExact(t: Table, k: nat, s: nat, n: nat, ack: bool)
    requires WellFormed(t) && Before(t, k, s + 1) && n > 0 && s + n <= LIMIT && k > 0 && End(t[k - 1]) >= s
    ensures Exact(t, Applied(t, Plan(t, k, s, n, ack)), s, n) == Clean(t, k, s, n)
  {
    var lo := t[k - 1];
    var ack1 := if s == lo.start && s + n >= End(lo) then ack else lo.ack && ack;
    var e := Max(End(lo), s + n);
    assert Ok(lo);
    if e - lo.start <= 512 {
      SetFitsExact(t, k, s, n, ack, Range(lo.start, e - lo.start, ack1));
    } else {
      SetSpillsExact(t, k, s, n, ack, if lo.len != 512 then Range(lo.start, 512, ack1) else lo, e - lo.start - 512);
    }
  }

  lemma SetFitsExact(t: Table, k: nat, s: nat, n: nat, ack: bool, r: Range)
    requires WellFormed(t) && Before(t, k, s + 1) && n > 0 && s + n <= LIMIT && k > 0 && End(t[k - 1]) >= s
    requires r.start == t[k - 1].start && End(r) == Max(End(t[k - 1]), s + n) && r.len <= 512
    requires r.ack == if s == r.start && s + n >= End(t[k - 1]) then ack else t[k - 1].ack && ack
    ensures Exact(t, Applied(t, Plan(t, k, s, n, ack)), s, n) == Clean(t, k, s, n)
  {
    assert Ok(t[k - 1]);
    PlanFits(t, k, s, n, ack, r);
    FitsReady(t, k, s, n, r);
    CombineExact(t, k - 1, [], k, r, r.start, s, n);
  }

  lemma SetSpillsExact(t: Table, k: nat, s: nat, n: nat, ack: bool, lo: Range, m: nat)
    requires WellFormed(t) && Before(t, k, s + 1) && n > 0 && s + n <= LIMIT && k > 0 && End(t[k - 1]) >= s
    requires lo.start == t[k - 1].start && lo.len == 512 && m > 0 && End(lo) + m == Max(End(t[k - 1]), s + n)
    requires if t[k - 1].len == 512 then lo == t[k - 1]
             else lo.ack == if s == lo.start && s + n >= End(t[k - 1]) then ack else t[k - 1].ack && ack
    ensures Exact(t, Applied(t, Plan(t, k, s, n, ack)), s, n) == Clean(t, k, s, n)
  {
    PlanSpills(t, k, s, n, ack, lo, End(lo), m);
    SpillsReady(t, k, s, n, lo, End(lo), m);
    RestExact(t, k - 1, [lo], k, End(lo), m, lo.start, s, n, ack);
  }

  lemma PlanFits(t: Table, k: nat, s: nat, n: nat, ack: bool, r: Range)
    requires 0 < k <= |t| && End(t[k - 1]) >= s && t[k - 1].len > 0
    requires r.start == t[k - 1].start && End(r) == Max(End(t[k - 1]), s + n) && r.len <= 512
    requires r.ack == if s == r.start && s + n >= End(t[k - 1]) then ack else t[k - 1].ack && ack
    ensures Plan(t, k, s, n, ack) == Combine(t, k - 1, [], k, r) && Clean(t, k, s, n) == CleanEnd(t, k, r.start, End(r))
  {
  }

  lemma PlanSpills(t: Table, k: nat, s: nat, n: nat, ack: bool, lo: Range, s1: nat, m: nat)
    requires 0 < k <= |t| && End(t[k - 1]) >= s && s1 == End(lo)
    requires lo.start == t[k - 1].start && lo.len == 512 && m > 0 && End(lo) + m == Max(End(t[k - 1]), s + n)
    requires if t[k - 1].len == 512 then lo == t[k - 1]
             else lo.ack == if s == lo.start && s + n >= End(t[k - 1]) then ack else t[k - 1].ack && ack
    ensures Plan(t, k, s, n, ack) == PlaceRest(t, k - 1, [lo], k, s1, m, ack) && Clean(t, k, s, n) == CleanRest(t, k, s1, m)
  {
  }

  lemma FitsReady(t: Table, k: nat, s: nat, n: nat, r: Range)
    requires WellFormed(t) && Before(t, k, s + 1) && n > 0 && s + n <= LIMIT && k > 0 && End(t[k - 1]) >= s
    requires r.start == t[k - 1].start && End(r) == Max(End(t[k - 1]), s + n) && r.len <= 512
    ensures Ready(t, k - 1, [], k, r, r.start, s, n)
  {
    assert Ok(t[k - 1]);
    StartsInside(t, k, s, n, End(r));
    NextStarts(t, k - 1);
    ContigMore([], r, r.start);
  }

  lemma SpillsReady(t: Table, k: nat, s: nat, n: nat, lo: Range, s1: nat, m: nat)
    requires WellFormed(t) && Before(t, k, s + 1) && n > 0 && s + n <= LIMIT && k > 0 && End(t[k - 1]) >= s
    requires lo.start == t[k - 1].start && lo.len == 512 && s1 == End(lo) && m > 0 && s1 + m == Max(End(t[k - 1]), s + n)
    ensures RestReady(t, k - 1, [lo], k, s1, m, lo.start, s, n)
  {
    assert Ok(t[k - 1]);
    StartsInside(t, k, s, n, s + n);
    NextStarts(t, k - 1);
  }

  /** At most BB_MAX_LEN sectors, overlapping no range that starts later. */
  predicate Plain(t: Table, k: nat, s: nat, n: nat) {
    && WellFormed(t) && Before(t, k, s + 1) && 0 < n <= 512 && s + n <= LIMIT
    && (k < |t| ==> s + n <= t[k].start)
  }

  /** In particular for a range of at most BB_MAX_LEN sectors that does not overlap a later one. */
  lemma PlainSetIsClean(t: Table, k: nat, s: nat, n: nat)
    requires Plain(t, k, s, n)
    ensures Clean(t, k, s, n)
  {
    assert k > 0 ==> Ok(t[k - 1]) && (k < |t| ==> Ordered(t, k - 1, k));
    assert k < |t| ==> Ok(t[k]) && (k + 1 < |t| ==> Ordered(t, k, k + 1));
  }

  /** A call that leaves a maximal acknowledged range as it is, although it overlaps it. */
  predicate Stuck(t: Table, k: nat, s: nat, n: nat)
    requires k <= |t|
  {
    k > 0 && t[k - 1].len == 512 && t[k - 1].ack && s < End(t[k - 1]) < s + n
  }

  /** The patch of a call that does not acknowledge is unacknowledged, a kept maximal range aside. */
  lemma PlanUnacked(t: Table, k: nat, s: nat, n: nat, i: nat)
    requires Plain(t, k, s, n) && i < |Plan(t, k, s, n, false).mid|
    ensures var r := Plan(t, k, s, n, false).mid[i];
      r.ack ==> i == 0 && k > 0 && r == t[k - 1] && r.len == 512 && s + n > End(r)
  {
    assert k > 0 ==> Ok(t[k - 1]) && (k < |t| ==> Ordered(t, k - 1, k));
    assert k < |t| ==> Ok(t[k]) && (k + 1 < |t| ==> Ok(t[k + 1]) && Ordered(t, k, k + 1));
    var r := Plan(t, k, s, n, false).mid[i];
    if k > 0 && End(t[k - 1]) >= s && Max(End(t[k - 1]), s + n) - t[k - 1].start > 512 {
      if i > 0 {
        RestUnacked(t, k - 1, Plan(t, k, s, n, false).mid[..1], k, t[k - 1].start + 512, s + n - t[k - 1].start - 512, i);
      }
    } else if k == 0 || End(t[k - 1]) < s {
      RestUnacked(t, k, [], k, s, n, i);
    }
  }

  lemma {:induction false} ChunksAck(s: nat, m: nat, ack: bool, i: nat)
    requires i < |Chunks(s, m, ack)|
    ensures Chunks(s, m, ack)[i].ack == ack
    decreases m
  {
    if m > 512 && i < |Chunks(s + 512, m - 512, ack)| {
      ChunksAck(s + 512, m - 512, ack, i);
    }
  }

  lemma RestUnacked(t: Table, p: nat, pre: Table, k: nat, s: nat, m: nat, i: nat)
    requires WellFormed(t) && m > 0 && |pre| <= i < |PlaceRest(t, p, pre, k, s, m, false).mid|
    requires k < |t| ==> s + m <= t[k].start
    ensures !PlaceRest(t, p, pre, k, s, m, false).mid[i].ack
  {
    assert k < |t| ==> Ok(t[k]) && (k + 1 < |t| ==> Ok(t[k + 1]) && Ordered(t, k, k + 1));
    if k < |t| && t[k].start <= s + m {
      var e := Max(End(t[k]), s + m);
      PlaceInto(t, p, pre, k, s, m, false, false, e);
      if e - s > 512 && i > |pre| {
        ChunksAck(s + 512, e - s - 512, false, i - |pre| - 1);
      }
    } else {
      PlaceAlone(t, p, pre, k, s, m, false);
      ChunksAck(s, m, false, i - |pre|);
    }
  }

  lemma PlanPlaces(t: Table, k: nat, s: nat, n: nat, x: nat)
    requires Plain(t, k, s, n) && s <= x < s + n
    ensures var plan := Plan(t, k, s, n, false); plan.p <= plan.q <= |t| && !Covered(t[..plan.p], x) && !Covered(t[plan.q..], x)
  {
    var plan := Plan(t, k, s, n, false);
    PlanPlacesEarlier(t, k, s, n, x);
    assert plan.p <= plan.q <= |t|;
    var later := t[plan.q..];
    forall j | 0 <= j < |later| ensures !In(later[j], x) {
      PlanPlacesLater(t, k, s, n, x, plan.q + j);
    }
  }

  lemma PlanPlacesEarlier(t: Table, k: nat, s: nat, n: nat, x: nat)
    requires Plain(t, k, s, n) && s <= x < s + n
    ensures Plan(t, k, s, n, false).p <= |t| && !Covered(t[..Plan(t, k, s, n, false).p], x)
  {
    assert k > 0 ==> Ok(t[k - 1]);
    assert k > 1 ==> Ordered(t, k - 2, k - 1);
    EarlierEnds(t, Plan(t, k, s, n, false).p, s, x);
  }

  lemma PlanPlacesLater(t: Table, k: nat, s: nat, n: nat, x: nat, j: nat)
    requires Plain(t, k, s, n) && s <= x < s + n && Plan(t, k, s, n, false).q <= j < |t|
    ensures !In(t[j], x)
  {
    assert t[j].start > s;
    assert k < j ==> Ordered(t, k, j) && Ok(t[k]);
  }

  /** In a plain call that does not acknowledge, every new sector ends up unacknowledged, if and only
      if the call is not Stuck. */
  lemma UnackedSet(t: Table, k: nat, s: nat, n: nat)
    requires Plain(t, k, s, n)
    ensures (forall x: nat :: s <= x < s + n ==> Has(Applied(t, Plan(t, k, s, n, false)), x, false)) == !Stuck(t, k, s, n)
  {
    var plan := Plan(t, k, s, n, false);
    var t' := Applied(t, plan);
    PlainSetIsClean(t, k, s, n);
    SetExact(t, k, s, n, false);
    if Stuck(t, k, s, n) {
      StuckStays(t, k, s, n);
    } else {
      forall x: nat | s <= x < s + n ensures Has(t', x, false) {
        assert Covered(t', x);
        UnackedAt(t, k, s, n, x);
      }
    }
  }

  lemma UnackedAt(t: Table, k: nat, s: nat, n: nat, x: nat)
    requires Plain(t, k, s, n) && !Stuck(t, k, s, n) && s <= x < s + n
    requires Covered(Applied(t, Plan(t, k, s, n, false)), x)
    ensures Has(Applied(t, Plan(t, k, s, n, false)), x, false)
  {
    var plan := Plan(t, k, s, n, false);
    PlanPlaces(t, k, s, n, x);
    SplicedCovers(t, plan.p, plan.q, plan.mid, x);
    var i :| 0 <= i < |plan.mid| && In(plan.mid[i], x);
    PlanUnacked(t, k, s, n, i);
    SplicedHas(t, plan.p, plan.q, plan.mid, i, x);
  }

  lemma StuckStays(t: Table, k: nat, s: nat, n: nat)
    requires Plain(t, k, s, n) && Stuck(t, k, s, n)
    requires WellFormed(Applied(t, Plan(t, k, s, n, false)))
    ensures !Has(Applied(t, Plan(t, k, s, n, false)), s, false)
  {
    var t' := Applied(t, Plan(t, k, s, n, false));
    PlanSpills(t, k, s, n, false, t[k - 1], End(t[k - 1]), s + n - End(t[k - 1]));
    assert t'[k - 1] == t[k - 1];
    forall i | 0 <= i < |t'| && i != k - 1 ensures !In(t'[i], s) {
      assert if i < k - 1 then Ordered(t', i, k - 1) else Ordered(t', k - 1, i);
    }
  }

  /** Marking [500, 520) unacknowledged leaves [500, 512) acknowledged. */
  lemma SetCanStick()
    ensures var t := [Range(0, 512, true)];
      && Plain(t, 1, 500, 20) && Stuck(t, 1, 500, 20)
      && Applied(t, Plan(t, 1, 500, 20, false)) == [Range(0, 512, true), Range(512, 8, false)]
      && !Has([Range(0, 512, true), Range(512, 8, false)], 505, false)
  {
    var t := [Range(0, 512, true)];
    assert t[..0] == [] && t[1..] == [];
    assert Chunks(512, 8, false) == [Range(512, 8, false)];
  }

  /** The combining step can cut off sectors just recorded: after marking [5, 100), sector 50 is not
      in the table. */
  lemma SetCanLose()
    ensures var t := [Range(0, 10, true), Range(20, 10, true)];
      && WellFormed(t) && Before(t, 1, 6)
      && Applied(t, Plan(t, 1, 5, 95, true)) == [Range(0, 30, true)] && !Covered([Range(0, 30, true)], 50)
  {
    var t := [Range(0, 10, true), Range(20, 10, true)];
    assert Plan(t, 1, 5, 95, true) == Patch(0, 2, [Range(0, 30, true)]);
  }

  // ---------------------------------------------------------------- acknowledgement

  predicate AllAcked(t: Table) {
    forall i :: 0 <= i < |t| ==> t[i].ack
  }

  /** Every range acknowledged. */
  function Acked(t: Table): (r: Table)
    ensures |r| == |t|
  {
    seq(|t|, i requires 0 <= i < |t| => t[i].(ack := true))
  }

  lemma AckedIsAcked(t: Table)
    ensures AllAcked(Acked(t))
  {
  }

  lemma AckStep(t: Table, i: nat)
    requires i < |t|
    ensures var v := Acked(t[..i]) + t[i..];
      v[i] == t[i] && v[i := Range(t[i].start, t[i].len, true)] == Acked(t[..i + 1]) + t[i + 1..] && v[i := v[i]] == v
  {
    assert Acked(t[..i + 1]) == Acked(t[..i]) + [t[i].(ack := true)];
  }

  // ---------------------------------------------------------------- badblocks_clear

  function Min(a: nat, b: nat): nat {
    if a < b then a else b
  }

  /** What is left of a range outside [s, e). */
  function Pieces(r: Range, s: nat, e: nat): Table {
    var left := if r.start < s then [Range(r.start, Min(End(r), s) - r.start, r.ack)] else [];
    var right := if End(r) > e then [Range(Max(r.start, e), End(r) - Max(r.start, e), r.ack)] else [];
    left + right
  }

  /** The table without [s, e), range by range. */
  function Cleared(t: Table, s: nat, e: nat): Table {
    if t == [] then [] else Cleared(t[..|t| - 1], s, e) + Pieces(t[|t| - 1], s, e)
  }

  lemma HasConcat(a: Table, b: Table, x: nat, ack: bool)
    ensures Has(a + b, x, ack) <==> Has(a, x, ack) || Has(b, x, ack)
  {
    if Has(a, x, ack) {
      var i :| 0 <= i < |a| && In(a[i], x) && a[i].ack == ack;
      assert In((a + b)[i], x);
    }
    if Has(b, x, ack) {
      var i :| 0 <= i < |b| && In(b[i], x) && b[i].ack == ack;
      assert In((a + b)[|a| + i], x);
    }
  }

  lemma HasOne(r: Range, x: nat, ack: bool)
    ensures Has([r], x, ack) <==> In(r, x) && r.ack == ack
  {
    assert In([r][0], x) <==> In(r, x);
  }

  lemma PiecesHave(r: Range, s: nat, e: nat, x: nat, ack: bool)
    requires s <= e
    ensures Has(Pieces(r, s, e), x, ack) <==> In(r, x) && r.ack == ack && !(s <= x < e)
  {
    var left := if r.start < s then [Range(r.start, Min(End(r), s) - r.start, r.ack)] else [];
    var right := if End(r) > e then [Range(Max(r.start, e), End(r) - Max(r.start, e), r.ack)] else [];
    HasConcat(left, right, x, ack);
    HasOne(Range(r.start, if r.start < s then Min(End(r), s) - r.start else 0, r.ack), x, ack);
    HasOne(Range(Max(r.start, e), if End(r) > e then End(r) - Max(r.start, e) else 0, r.ack), x, ack);
  }

  /** badblocks_clear removes exactly [s, e), and leaves every other acknowledgement as it was. */
  lemma {:induction false} ClearedHas(t: Table, s: nat, e: nat, x: nat, ack: bool)
    requires s <= e
    ensures Has(Cleared(t, s, e), x, ack) <==> Has(t, x, ack) && !(s <= x < e)
  {
    if t != [] {
      var front, last := t[..|t| - 1], t[|t| - 1];
      assert t == front + [last];
      ClearedHas(front, s, e, x, ack);
      PiecesHave(last, s, e, x, ack);
      HasConcat(Cleared(front, s, e), Pieces(last, s, e), x, ack);
      HasConcat(front, [last], x, ack);
      HasOne(last, x, ack);
    }
  }

  lemma PiecesForm(r: Range, s: nat, e: nat)
    requires Ok(r) && s <= e
    ensures var ps := Pieces(r, s, e);
      WellFormed(ps) && (ps != [] ==> r.start <= ps[0].start && End(ps[|ps| - 1]) <= End(r))
  {
  }

  /** The table stays well formed. */
  lemma {:induction false} ClearedForms(t: Table, s: nat, e: nat)
    requires WellFormed(t) && s <= e
    ensures var c := Cleared(t, s, e); WellFormed(c) && (c != [] ==> t != [] && End(c[|c| - 1]) <= End(t[|t| - 1]))
  {
    if t != [] {
      var front, last := t[..|t| - 1], t[|t| - 1];
      SliceForms(t, 0, |t| - 1);
      assert t[0..|t| - 1] == front;
      ClearedForms(front, s, e);
      assert Ok(last);
      PiecesForm(last, s, e);
      assert |t| > 1 ==> Ordered(t, |t| - 2, |t| - 1) && front[|front| - 1] == t[|t| - 2];
      ConcatForms(Cleared(front, s, e), Pieces(last, s, e));
    }
  }

  lemma {:induction false} ClearedConcat(a: Table, b: Table, s: nat, e: nat)
    ensures Cleared(a + b, s, e) == Cleared(a, s, e) + Cleared(b, s, e)
  {
    if b == [] {
      assert a + b == a;
    } else {
      assert (a + b)[..|a + b| - 1] == a + b[..|b| - 1];
      ClearedConcat(a, b[..|b| - 1], s, e);
    }
  }

  lemma {:induction false} ClearedOutside(t: Table, s: nat, e: nat)
    requires s <= e && forall i :: 0 <= i < |t| ==> Ok(t[i]) && (End(t[i]) <= s || t[i].start >= e)
    ensures Cleared(t, s, e) == t
  {
    if t != [] {
      ClearedOutside(t[..|t| - 1], s, e);
      PiecesOutside(t[|t| - 1], s, e);
      assert t == t[..|t| - 1] + [t[|t| - 1]];
    }
  }

  lemma PiecesOutside(r: Range, s: nat, e: nat)
    requires Ok(r) && s <= e && (End(r) <= s || r.start >= e)
    ensures Pieces(r, s, e) == [r]
  {
  }

  /** Ranges that lie in [s, e) leave nothing. */
  lemma ClearedDrops(t: Table, j: nat, s: nat, e: nat)
    requires j < |t| && s <= t[j].start && End(t[j]) <= e
    ensures Cleared(t[..j + 1], s, e) == Cleared(t[..j], s, e)
  {
    assert t[..j + 1][..j] == t[..j] && t[..j + 1][j] == t[j];
  }

  /** Once the ranges up to `j` end at or before `s`, they stay. */
  lemma ClearedStays(t: Table, j: nat, s: nat, e: nat)
    requires WellFormed(t) && j <= |t| && (j > 0 ==> End(t[j - 1]) <= s) && s <= e
    ensures Cleared(t[..j], s, e) == t[..j]
  {
    forall i | 0 <= i < j ensures Ok(t[..j][i]) && End(t[..j][i]) <= s {
      assert Ok(t[i]) && (i < j - 1 ==> Ordered(t, i, j - 1) && Ok(t[j - 1]));
    }
    ClearedOutside(t[..j], s, e);
  }

  lemma ClearedTail(t: Table, k: nat, s: nat, e: nat)
    requires WellFormed(t) && Before(t, k, e) && s <= e
    ensures Cleared(t, s, e) == Cleared(t[..k], s, e) + t[k..]
  {
    assert t == t[..k] + t[k..];
    ClearedConcat(t[..k], t[k..], s, e);
    forall i | 0 <= i < |t[k..]| ensures Ok(t[k..][i]) && t[k..][i].start >= e {
      assert Ok(t[k + i]);
    }
    ClearedOutside(t[k..], s, e);
  }

  /** Range `j` is the first that reaches past `s`. */
  lemma ClearedCuts(t: Table, j: nat, s: nat, e: nat)
    requires WellFormed(t) && j < |t| && t[j].start < s <= e
    ensures Cleared(t[..j + 1], s, e) == t[..j] + Pieces(t[j], s, e)
  {
    assert Ok(t[j]) && (j > 0 ==> Ordered(t, j - 1, j));
    ClearedStays(t, j, s, e);
    assert t[..j + 1][..j] == t[..j] && t[..j + 1][j] == t[j];
  }

  lemma SplitRange(t: Table, j: nat, s: nat, e: nat)
    requires WellFormed(t) && j < |t| && t[j].start < s <= e < End(t[j])
    ensures var head, tail := Range(t[j].start, s - t[j].start, t[j].ack), Range(e, End(t[j]) - e, t[j].ack);
      (t[..j] + [head] + t[j..])[j + 1 := tail] == Cleared(t[..j + 1], s, e) + t[j + 1..]
  {
    ClearedCuts(t, j, s, e);
  }

  lemma TrimRange(t: Table, j: nat, s: nat, e: nat)
    requires j < |t| && s <= t[j].start < e < End(t[j])
    ensures var tail := Range(e, End(t[j]) - e, t[j].ack);
      && t[j := tail][..j] == t[..j]
      && Cleared(t[..j], s, e) + t[j := tail][j..] == Cleared(t[..j + 1], s, e) + t[j + 1..]
  {
    var tail := Range(e, End(t[j]) - e, t[j].ack);
    assert t[..j + 1][..j] == t[..j] && Pieces(t[j], s, e) == [tail];
    assert t[j := tail][j..] == [tail] + t[j + 1..];
  }

  lemma TrimHead(t: Table, j: nat, s: nat, e: nat)
    requires WellFormed(t) && j < |t| && t[j].start < s < End(t[j]) <= e
    ensures Cleared(t[..j + 1], s, e) == t[..j] + [Range(t[j].start, s - t[j].start, t[j].ack)]
  {
    ClearedCuts(t, j, s, e);
  }

  lemma EarlierFit(t: Table, j: nat, e: nat)
    requires WellFormed(t) && j < |t| && t[j].start < e
    ensures forall i :: 0 <= i < j ==> t[i].start < e && End(t[i]) <= e
  {
    forall i | 0 <= i < j ensures t[i].start < e && End(t[i]) <= e {
      assert Ordered(t, i, j) && Ok(t[i]);
    }
  }

  // ---------------------------------------------------------------- searching

  /** What the binary search for `x` ends with. */
  predicate Found(t: Table, lo: nat, hi: nat, x: nat) {
    if t == [] then lo == hi == 0
    else hi == lo + 1 <= |t| && (lo > 0 ==> t[lo].start < x) && (hi < |t| ==> t[hi].start >= x)
  }

  lemma FoundBefore(t: Table, lo: nat, hi: nat, x: nat)
    requires WellFormed(t) && Found(t, lo, hi, x)
    ensures Before(t, if hi > lo && t[lo].start < x then hi else lo, x)
  {
    forall i | 0 <= i < lo ensures t[i].start < x {
      assert Ordered(t, i, lo);
    }
    forall i | hi < i < |t| ensures t[i].start >= x {
      assert Ordered(t, hi, i) && Ok(t[hi]);
    }
    assert lo == hi || t[lo].start >= x ==> lo == 0;
  }

  // ---------------------------------------------------------------- badblocks_check

  predicate Overlaps(r: Range, s: nat, e: nat) {
    r.start < e && s < End(r)
  }

  /** The naive scan over the ranges from `from` on. */
  predicate AnyOverlap(t: Table, from: int, s: nat, e: nat) {
    exists i :: from <= i < |t| && 0 <= i && Overlaps(t[i], s, e)
  }

  predicate AnyUnacked(t: Table, from: int, s: nat, e: nat) {
    exists i :: from <= i < |t| && 0 <= i && Overlaps(t[i], s, e) && !t[i].ack
  }

  /** -1, 0 or 1 as badblocks_check returns it. */
  function Verdict(t: Table, from: int, s: nat, e: nat): int {
    if AnyUnacked(t, from, s, e) then -1 else if AnyOverlap(t, from, s, e) then 1 else 0
  }

  predicate FirstOverlap(t: Table, i: nat, s: nat, e: nat) {
    i < |t| && Overlaps(t[i], s, e) && forall j :: 0 <= j < i ==> !Overlaps(t[j], s, e)
  }

  /** The lowest overlapping range starts at `start` and has `len` sectors. */
  predicate FirstBad(t: Table, s: nat, e: nat, start: nat, len: nat) {
    exists i: nat :: i < |t| && FirstOverlap(t, i, s, e) && t[i].start == start && t[i].len == len
  }

  lemma VerdictStep(t: Table, i: nat, s: nat, e: nat)
    requires i < |t| && Overlaps(t[i], s, e)
    ensures Verdict(t, i, s, e) == if Verdict(t, i + 1, s, e) != -1 && t[i].ack then 1 else -1
  {
    if AnyUnacked(t, i + 1, s, e) {
      var j :| i + 1 <= j < |t| && Overlaps(t[j], s, e) && !t[j].ack;
      assert Overlaps(t[j], s, e);
    }
  }

  /** Nothing before a range that ends at or before `s` overlaps. */
  lemma VerdictEnds(t: Table, i: nat, s: nat, e: nat)
    requires WellFormed(t) && i <= |t| && (i > 0 ==> End(t[i - 1]) <= s)
    ensures Verdict(t, 0, s, e) == Verdict(t, i, s, e) && forall j :: 0 <= j < i ==> !Overlaps(t[j], s, e)
  {
    forall j | 0 <= j < i ensures !Overlaps(t[j], s, e) {
      assert j < i - 1 ==> Ordered(t, j, i - 1) && Ok(t[i - 1]);
    }
  }

  lemma VerdictStarts(t: Table, k: nat, s: nat, e: nat)
    requires Before(t, k, e)
    ensures Verdict(t, k, s, e) == 0
  {
  }

  // ---------------------------------------------------------------- the table in its page

  function Packed(t: Table): (words: seq<int>)
    ensures |words| == |t|
  {
    if t == [] then [] else Packed(t[..|t| - 1]) + [Pack(t[|t| - 1])]
  }

  lemma {:induction false} PackedAt(t: Table, i: nat)
    requires i < |t|
    ensures Packed(t)[i] == Pack(t[i])
  {
    if i < |t| - 1 {
      PackedAt(t[..|t| - 1], i);
    }
  }

  lemma {:induction false} PackedConcat(a: Table, b: Table)
    ensures Packed(a + b) == Packed(a) + Packed(b)
  {
    if b == [] {
      assert a + b == a;
    } else {
      assert (a + b)[..|a + b| - 1] == a + b[..|b| - 1];
      PackedConcat(a, b[..|b| - 1]);
    }
  }

  lemma PackedUpdate(t: Table, i: nat, r: Range)
    requires i < |t|
    ensures Packed(t[i := r]) == Packed(t)[i := Pack(r)]
  {
    var t' := t[i := r];
    var words := Packed(t');
    forall j | 0 <= j < |t| ensures words[j] == Packed(t)[i := Pack(r)][j] {
      PackedAt(t', j);
      PackedAt(t, j);
    }
  }

  predicate AllStorable(t: Table) {
    forall i :: 0 <= i < |t| ==> Storable(t[i])
  }

  // ---------------------------------------------------------------- badblocks_set, step by step

  /** Combining range `lo` with the next one, in place. */
  function CombineAt(v: Table, lo: nat): Table
    requires lo < |v|
  {
    if lo + 1 < |v| && v[lo + 1].start <= End(v[lo]) && v[lo].len + v[lo + 1].len - (End(v[lo]) - v[lo + 1].start) < 512
    then v[..lo] + [Made(v[lo].start, v[lo].len + v[lo + 1].len - (End(v[lo]) - v[lo + 1].start), v[lo].ack && v[lo + 1].ack)] + v[lo + 2..]
    else v
  }

  lemma CombineJoins(v: Table, lo: nat, newlen: int)
    requires lo + 1 < |v| && v[lo + 1].start <= End(v[lo]) && newlen < 512
    requires newlen == v[lo].len + v[lo + 1].len - (End(v[lo]) - v[lo + 1].start)
    ensures CombineAt(v, lo) == v[..lo] + [Made(v[lo].start, newlen, v[lo].ack && v[lo + 1].ack)] + v[lo + 2..]
  {
  }

  function InsertAt(v: Table, i: nat, more: Table): Table
    requires i <= |v|
  {
    v[..i] + more + v[i..]
  }

  /** The table and the locals of badblocks_set: [s, s + m) is still to be placed, before range `hi`;
      when m is 0, the new range ends with range `lo`. */
  datatype Cursor = Cursor(v: Table, s: nat, m: nat, lo: nat, hi: nat)

  /** After the attempt to merge with the range before. */
  function Low(v: Table, k: nat, s: nat, n: nat, ack: bool): Cursor
    requires k <= |v|
  {
    if k > 0 && End(v[k - 1]) >= s then
      var lo := v[k - 1];
      var ack1 := if s == lo.start && s + n >= End(lo) then ack else lo.ack && ack;
      var e := Max(End(lo), s + n);
      if e - lo.start <= 512 then Cursor(v[k - 1 := Made(lo.start, e - lo.start, ack1)], e, 0, k - 1, k)
      else
        var lo' := if lo.len != 512 then Range(lo.start, 512, ack1) else lo;
        Cursor(v[k - 1 := lo'], lo.start + 512, e - lo.start - 512, k - 1, k)
    else Cursor(v, s, n, if k > 0 then k - 1 else 0, k)
  }

  /** After the attempt to merge with the range after. */
  function High(c: Cursor, ack: bool): Cursor {
    if c.m > 0 && c.hi < |c.v| && c.v[c.hi].start <= c.s + c.m then
      var hi := c.v[c.hi];
      var e := Max(End(hi), c.s + c.m);
      var ack2 := if End(hi) <= c.s + c.m then ack else hi.ack && ack;
      if e - c.s <= 512 then Cursor(c.v[c.hi := Made(c.s, e - c.s, ack2)], e, 0, c.hi, c.hi + 1)
      else Cursor(c.v[c.hi := Range(c.s, 512, ack2)], c.s + 512, e - c.s - 512, c.hi, c.hi + 1)
    else c
  }

  /** After combining, or inserting what is left. */
  function Finished(c: Cursor, ack: bool): Table {
    if c.m == 0 && c.lo < |c.v| then CombineAt(c.v, c.lo)
    else if c.m > 0 && c.hi <= |c.v| then InsertAt(c.v, c.hi, Chunks(c.s, c.m, ack))
    else c.v
  }

  lemma ChunksStep(s: nat, m: nat, ack: bool, done: Table)
    requires m > 0
    ensures var chunk := if m > 512 then 512 else m;
      Chunks(s, m, ack) + done == Chunks(s + chunk, m - chunk, ack) + ([Range(s, chunk, ack)] + done)
  {
  }

  lemma Around<T>(a: seq<T>, x: T, c: seq<T>)
    ensures var v := a + [x] + c;
      && v[..|a|] == a && v[|a|] == x && v[|a| + 1..] == c
      && (c != [] ==> v[|a| + 1] == c[0] && v[|a| + 2..] == c[1..])
  {
  }

  lemma InsertFront<T>(a: seq<T>, b: seq<T>, c: seq<T>, x: T)
    ensures var v := a + b + c; v[..|a|] + [x] + v[|a|..] == a + ([x] + b) + c
  {
    var v := a + b + c;
    assert v[..|a|] == a && v[|a|..] == b + c;
  }

  lemma CombineIs(t: Table, p: nat, pre: Table, i: nat, r: Range, v: Table)
    requires p <= i <= |t| && v == t[..p] + pre + [r] + t[i..]
    ensures Applied(t, Combine(t, p, pre, i, r)) == CombineAt(v, p + |pre|)
  {
    var a, c := t[..p] + pre, t[i..];
    Around(a, r, c);
    var plan := Combine(t, p, pre, i, r);
    if plan.q == i {
      assert Applied(t, plan) == t[..p] + (pre + [r]) + c == v;
    } else {
      var x := plan.mid[|pre|];
      assert plan.mid == pre + [x];
      assert t[..p] + (pre + [x]) + t[i + 1..] == a + [x] + c[1..];
    }
  }

  lemma InsertIs(t: Table, p: nat, pre: Table, i: nat, more: Table, v: Table)
    requires p <= i <= |t| && v == t[..p] + pre + t[i..]
    ensures v[..p + |pre|] + more + v[p + |pre|..] == Applied(t, Patch(p, i, pre + more))
  {
    assert v[..p + |pre|] == t[..p] + pre && v[p + |pre|..] == t[i..];
  }

  lemma PutIs(t: Table, p: nat, pre: Table, k: nat, r: Range, v: Table)
    requires k == p + |pre| < |t| && v == t[..p] + pre + t[k..]
    ensures v[k := r] == t[..p] + pre + [r] + t[k + 1..] == t[..p] + (pre + [r]) + t[k + 1..]
  {
  }

  lemma JoinIs(t: Table, p: nat, pre: Table, i: nat, r: Range, c: Cursor, plan: Patch, ack: bool)
    requires p <= i <= |t| && c.v == t[..p] + pre + [r] + t[i..] && c.m == 0 && c.lo == p + |pre|
    requires plan == Combine(t, p, pre, i, r)
    ensures Finished(c, ack) == Applied(t, plan)
  {
    CombineIs(t, p, pre, i, r, c.v);
  }

  lemma MoreIs(t: Table, p: nat, pre: Table, i: nat, c: Cursor, plan: Patch, ack: bool)
    requires p <= i <= |t| && c.v == t[..p] + pre + t[i..] && c.m > 0 && c.hi == p + |pre|
    requires plan == Patch(p, i, pre + Chunks(c.s, c.m, ack))
    ensures Finished(c, ack) == Applied(t, plan)
  {
    InsertIs(t, p, pre, i, Chunks(c.s, c.m, ack), c.v);
  }

  lemma HighIs(t: Table, p: nat, pre: Table, k: nat, c: Cursor, ack: bool)
    requires k == p + |pre| <= |t| && c.v == t[..p] + pre + t[k..] && c.hi == k && c.m > 0
    ensures Finished(High(c, ack), ack) == Applied(t, PlaceRest(t, p, pre, k, c.s, c.m, ack))
  {
    assert k < |t| ==> c.v[k] == t[k];
    if k < |t| && t[k].start <= c.s + c.m {
      var ack2 := if End(t[k]) <= c.s + c.m then ack else t[k].ack && ack;
      var e := Max(End(t[k]), c.s + c.m);
      PlaceInto(t, p, pre, k, c.s, c.m, ack, ack2, e);
      var r := Range(c.s, if e - c.s <= 512 then e - c.s else 512, ack2);
      PutIs(t, p, pre, k, r, c.v);
      if e - c.s <= 512 {
        JoinIs(t, p, pre, k + 1, r, High(c, ack), PlaceRest(t, p, pre, k, c.s, c.m, ack), ack);
      } else {
        MoreIs(t, p, pre + [r], k + 1, High(c, ack), PlaceRest(t, p, pre, k, c.s, c.m, ack), ack);
      }
    } else {
      PlaceAlone(t, p, pre, k, c.s, c.m, ack);
      MoreIs(t, p, pre, k, c, PlaceRest(t, p, pre, k, c.s, c.m, ack), ack);
    }
  }

  lemma LowFits(t: Table, k: nat, s: nat, n: nat, ack: bool, r: Range)
    requires 0 < k <= |t| && n > 0 && End(t[k - 1]) >= s && t[k - 1].len > 0
    requires r.start == t[k - 1].start && End(r) == Max(End(t[k - 1]), s + n) && r.len <= 512
    requires r.ack == if s == r.start && s + n >= End(t[k - 1]) then ack else t[k - 1].ack && ack
    ensures Finished(High(Low(t, k, s, n, ack), ack), ack) == Applied(t, Plan(t, k, s, n, ack))
  {
    PlanFits(t, k, s, n, ack, r);
    var c := Low(t, k, s, n, ack);
    assert c == Cursor(t[k - 1 := r], End(r), 0, k - 1, k);
    assert t[k - 1 := r] == t[..k - 1] + [] + [r] + t[k..];
    JoinIs(t, k - 1, [], k, r, c, Plan(t, k, s, n, ack), ack);
  }

  lemma LowSpills(t: Table, k: nat, s: nat, n: nat, ack: bool, lo: Range, m: nat)
    requires 0 < k <= |t| && n > 0 && End(t[k - 1]) >= s && t[k - 1].len > 0
    requires lo.start == t[k - 1].start && lo.len == 512 && m > 0 && End(lo) + m == Max(End(t[k - 1]), s + n)
    requires if t[k - 1].len == 512 then lo == t[k - 1]
             else lo.ack == if s == lo.start && s + n >= End(t[k - 1]) then ack else t[k - 1].ack && ack
    ensures Finished(High(Low(t, k, s, n, ack), ack), ack) == Applied(t, Plan(t, k, s, n, ack))
  {
    PlanSpills(t, k, s, n, ack, lo, End(lo), m);
    var c := Low(t, k, s, n, ack);
    assert c == Cursor(t[k - 1 := lo], End(lo), m, k - 1, k);
    assert t[k - 1 := lo] == t[..k - 1] + [lo] + t[k..];
    HighIs(t, k - 1, [lo], k, c, ack);
  }

  /** The steps of badblocks_set carry out the plan. */
  lemma StepsArePlan(t: Table, k: nat, s: nat, n: nat, ack: bool)
    requires k <= |t| && n > 0 && (k > 0 ==> t[k - 1].len > 0)
    ensures Finished(High(Low(t, k, s, n, ack), ack), ack) == Applied(t, Plan(t, k, s, n, ack))
  {
    if k > 0 && End(t[k - 1]) >= s {
      var lo := t[k - 1];
      var ack1 := if s == lo.start && s + n >= End(lo) then ack else lo.ack && ack;
      var e := Max(End(lo), s + n);
      if e - lo.start <= 512 {
        LowFits(t, k, s, n, ack, Range(lo.start, e - lo.start, ack1));
      } else {
        LowSpills(t, k, s, n, ack, if lo.len != 512 then Range(lo.start, 512, ack1) else lo, e - lo.start - 512);
      }
    } else {
      assert t == t[..k] + [] + t[k..];
      HighIs(t, k, [], k, Low(t, k, s, n, ack), ack);
    }
  }

  // Acknowledging calls leave no range unacknowledged that was not so before.

  lemma LowAcked(v: Table, k: nat, s: nat, n: nat)
    requires k <= |v| && AllAcked(v)
    ensures AllAcked(Low(v, k, s, n, true).v)
  {
    assert k > 0 ==> v[k - 1].ack;
  }

  lemma HighAcked(c: Cursor)
    requires AllAcked(c.v)
    ensures AllAcked(High(c, true).v)
  {
    assert c.hi < |c.v| ==> c.v[c.hi].ack;
  }

  lemma InsertAcked(v: Table, i: nat, r: Range)
    requires i <= |v| && AllAcked(v) && r.ack
    ensures AllAcked(v[..i] + [r] + v[i..])
  {
  }

  lemma CombineAcked(v: Table, lo: nat)
    requires lo < |v| && AllAcked(v)
    ensures AllAcked(CombineAt(v, lo))
  {
    assert v[lo].ack && (lo + 1 < |v| ==> v[lo + 1].ack);
  }

  lemma {:induction false} ClearedAcked(t: Table, s: nat, e: nat)
    requires AllAcked(t)
    ensures AllAcked(Cleared(t, s, e))
  {
    if t != [] {
      assert t[|t| - 1].ack;
      ClearedAcked(t[..|t| - 1], s, e);
    }
  }

  lemma SamePrefix<T>(a: seq<T>, b: seq<T>, n: nat, i: nat)
    requires i < n <= |a| && n <= |b| && a[..n] == b[..n]
    ensures a[i] == b[i] && a[..i] == b[..i] && a[..i + 1] == b[..i + 1]
  {
    assert a[i] == a[..n][i] && b[i] == b[..n][i];
    assert a[..i] == a[..n][..i] && b[..i] == b[..n][..i];
    assert a[..i + 1] == a[..n][..i + 1] && b[..i + 1] == b[..n][..i + 1];
  }

  lemma PairJoined<T>(v: seq<T>, i: nat, x: T)
    requires i + 1 < |v|
    ensures v[i := x][..i + 1] + v[i := x][i + 2..] == v[..i] + [x] + v[i + 2..]
  {
  }

  lemma PutKeeps<T>(v: seq<T>, i: nat, x: T, hi: nat)
    requires i < hi <= |v|
    ensures v[i := x][..i + 1] == v[..i] + [x] && v[i := x][hi..] == v[hi..]
  {
  }

  class BadBlockTable {
    const words: array<int>
    var count: nat
    var unackedExist: bool
    var changed: bool

    ghost var table: Table

    /** The page holds `table`, packed. */
    ghost predicate Valid()
      reads `count, `table, words
    {
      words.Length == MAX_BADBLOCKS && count == |table| <= words.Length && AllStorable(table) && words[..count] == Packed(table)
    }

    /** The flag is set whenever some range is not acknowledged. */
    ghost predicate Flagged()
      reads `table, `unackedExist
    {
      AllAcked(table) || unackedExist
    }

    constructor ()
      ensures Valid() && table == [] && fresh(words) && Flagged()
    {
      words := new int[MAX_BADBLOCKS];
      count, unackedExist, changed, table := 0, false, false, [];
    }

    method Get(i: nat) returns (r: Range)
      requires Valid() && i < count
      ensures r == table[i]
    {
      PackedAt(table, i);
      assert words[i] == words[..count][i];
      PackRoundTrip(table[i]);
      r := Unpack(words[i]);
    }

    method Put(i: nat, r: Range)
      requires Valid() && i < count && Storable(r)
      modifies `table, words
      ensures Valid() && table == old(table)[i := r]
    {
      PackedUpdate(table, i, r);
      words[i] := Pack(r);
      table := table[i := r];
      assert words[..count] == old(words[..count])[i := Pack(r)];
    }

    /** The binary search the three operations share: the last range that starts before `x`. */
    method Search(x: nat) returns (lo: nat, hi: nat)
      requires Valid() && WellFormed(table)
      ensures Found(table, lo, hi, x)
    {
      lo, hi := 0, count;
      while hi - lo > 1
        invariant lo <= hi <= count && (count > 0 ==> lo < hi)
        invariant lo > 0 ==> table[lo].start < x
        invariant hi < count ==> table[hi].start >= x
      {
        var mid := (lo + hi) / 2;
        var r := Get(mid);
        if r.start < x {
          lo := mid;
        } else {
          hi := mid;
        }
      }
    }

    /** badblocks_check. */
    method Check(s: nat, sectors: nat) returns (rv: int, firstBad: nat, badSectors: nat)
      requires Valid() && WellFormed(table)
      ensures rv == Verdict(table, 0, s, s + sectors)
      ensures rv != 0 ==> FirstBad(table, s, s + sectors, firstBad, badSectors)
    {
      var target := s + sectors;
      ghost var t := table;
      rv, firstBad, badSectors := 0, 0, 0;
      var lo0, hi := Search(target);
      FoundBefore(t, lo0, hi, target);
      VerdictStarts(t, if hi > lo0 && t[lo0].start < target then hi else lo0, s, target);
      if hi <= lo0 {
        return;
      }
      var lo: int := lo0;
      if t[lo0].start >= target {
        VerdictEnds(t, 0, s, target);
      }
      while lo >= 0
        invariant -1 <= lo <= lo0 < count && t == table
        invariant t[lo0].start >= target ==> lo0 == 0
        invariant t[lo0].start >= target ==> rv == 0 && Verdict(t, 0, s, target) == 0
        invariant t[lo0].start < target ==> rv == Verdict(t, lo + 1, s, target)
        invariant rv != 0 ==> Overlaps(t[lo + 1], s, target) && firstBad == t[lo + 1].start && badSectors == t[lo + 1].len
      {
        var r := Get(lo);
        if End(r) <= s {
          break;
        }
        if r.start < target {
          VerdictStep(t, lo, s, target);
          if rv != -1 && r.ack {
            rv := 1;
          } else {
            rv := -1;
          }
          firstBad, badSectors := r.start, r.len;
        }
        lo := lo - 1;
      }
      VerdictEnds(t, lo + 1, s, target);
      if rv != 0 {
        assert FirstOverlap(t, lo + 1, s, target);
      }
    }

    /** badblocks_clear.  On -ENOSPC nothing has changed. */
    method Clear(s: nat, sectors: nat) returns (ok: bool)
      requires Valid() && WellFormed(table)
      modifies this, words
      ensures Valid() && table == if ok then Cleared(old(table), s, s + sectors) else old(table)
      ensures !ok ==> old(count) == MAX_BADBLOCKS && unackedExist == old(unackedExist) && changed == old(changed)
      ensures ok ==> changed && unackedExist == (old(unackedExist) && !AllAcked(table))
      ensures old(Flagged()) ==> Flagged()
    {
      if AllAcked(table) {
        ClearedAcked(table, s, s + sectors);
      }
      ok := ClearTable(s, s + sectors);
      if ok {
        UpdateAcked();
        changed := true;
      }
    }

    method ClearTable(s: nat, target: nat) returns (ok: bool)
      requires Valid() && WellFormed(table) && s <= target
      modifies `count, `table, words
      ensures Valid() && table == if ok then Cleared(old(table), s, target) else old(table)
      ensures !ok ==> old(count) == MAX_BADBLOCKS
    {
      ghost var t := table;
      var lo, hi := Search(target);
      FoundBefore(t, lo, hi, target);
      ClearedTail(t, if hi > lo && t[lo].start < target then hi else lo, s, target);
      ok := true;
      if hi > lo {
        var r := Get(lo);
        if End(r) > target && r.start < target {
          ok := ClearLast(s, target, lo);
        } else if r.start < target {
          EarlierFit(t, lo, target);
          ClearDown(s, target, lo, hi, t);
        } else {
          // nothing starts before the target: neither loop nor memmove does anything
          assert t[..lo] == [];
        }
      }
    }

    /** Range `lo` reaches past the target: its tail stays. */
    method ClearLast(s: nat, target: nat, lo: nat) returns (ok: bool)
      requires Valid() && WellFormed(table) && lo < count && s <= target
      requires table[lo].start < target < End(table[lo])
      modifies `count, `table, words
      ensures Valid() && table == if ok then Cleared(old(table)[..lo + 1], s, target) + old(table)[lo + 1..] else old(table)
      ensures !ok ==> old(count) == MAX_BADBLOCKS
    {
      var r := Get(lo);
      assert Ok(table[lo]);
      if r.start >= s {
        ClearHead(s, target, lo, r);
        return true;
      }
      if count >= MAX_BADBLOCKS {
        return false;
      }
      SplitRange(table, lo, s, target);
      Insert(lo, Range(r.start, s - r.start, r.ack));
      Put(lo + 1, Range(target, End(r) - target, r.ack));
      // the first part ends at s, so the loop ends at once
      ok := true;
    }

    method ClearHead(s: nat, target: nat, lo: nat, r: Range)
      requires Valid() && WellFormed(table) && lo < count && r == table[lo] && Ok(r)
      requires s <= r.start < target < End(r)
      modifies `count, `table, words
      ensures Valid() && table == Cleared(old(table)[..lo + 1], s, target) + old(table)[lo + 1..]
    {
      ghost var t := table;
      TrimRange(t, lo, s, target);
      EarlierFit(t, lo, target);
      Put(lo, Range(target, End(r) - target, r.ack));
      ClearDown(s, target, lo as int - 1, lo, t);
    }

    /** The loop over the ranges that end in [s, target], and the memmove over the ones that lie in it. */
    method ClearDown(s: nat, target: nat, last: int, hi: nat, ghost t: Table)
      requires Valid() && WellFormed(t) && s <= target
      requires -1 <= last < hi <= count && last < |t| && table[..last + 1] == t[..last + 1]
      requires forall i :: 0 <= i <= last ==> t[i].start < target && End(t[i]) <= target
      modifies `count, `table, words
      ensures Valid() && table == Cleared(t[..last + 1], s, target) + old(table)[hi..]
    {
      var lo := Descend(s, target, last, t);
      if lo < 0 {
        assert t[..0] == [];
        Drop(0, hi);
        return;
      }
      SamePrefix(table, t, last + 1, lo);
      var r := Get(lo);
      assert Ok(t[lo]);
      if End(r) > s {
        TrimHead(t, lo, s, target);
        PutKeeps(table, lo, Range(r.start, s - r.start, r.ack), hi);
        Put(lo, Range(r.start, s - r.start, r.ack));
      } else {
        ClearedStays(t, lo + 1, s, target);
      }
      Drop(lo + 1, hi);
    }

    /** The last range that does not lie in [s, target]. */
    method Descend(s: nat, target: nat, last: int, ghost t: Table) returns (lo: int)
      requires Valid() && s <= target && -1 <= last < count && last < |t| && table[..last + 1] == t[..last + 1]
      requires forall i :: 0 <= i <= last ==> t[i].start < target && End(t[i]) <= target
      ensures -1 <= lo <= last && (lo >= 0 ==> End(t[lo]) <= s || t[lo].start < s)
      ensures Cleared(t[..lo + 1], s, target) == Cleared(t[..last + 1], s, target)
    {
      lo := last;
      while lo >= 0
        invariant -1 <= lo <= last
        invariant Cleared(t[..lo + 1], s, target) == Cleared(t[..last + 1], s, target)
      {
        var r := Get(lo);
        assert r == table[..last + 1][lo];
        if End(r) <= s || r.start >= target || r.start < s {
          return;
        }
        ClearedDrops(t, lo, s, target);
        lo := lo - 1;
      }
    }

    method Drop(lo: nat, hi: nat)
      requires Valid() && lo <= hi <= count
      modifies `count, `table, words
      ensures Valid() && table == old(table)[..lo] + old(table)[hi..]
    {
      if hi > lo {
        Remove(lo, hi);
      }
    }

    /** badblocks_update_acked. */
    method UpdateAcked()
      requires Valid()
      modifies `unackedExist
      ensures unackedExist == (old(unackedExist) && !AllAcked(table))
    {
      if !unackedExist {
        return;
      }
      var i, unacked := 0, false;
      while i < count && !unacked
        invariant i <= count && unackedExist
        invariant unacked ==> !AllAcked(table)
        invariant !unacked ==> forall j :: 0 <= j < i ==> table[j].ack
      {
        var r := Get(i);
        unacked := !r.ack;
        i := i + 1;
      }
      if !unacked {
        unackedExist := false;
      }
    }

    method AckOne(i: nat)
      requires Valid() && i < count
      modifies `table, words
      ensures Valid() && table == old(table)[i := Range(old(table)[i].start, old(table)[i].len, true)]
    {
      var r := Get(i);
      if !r.ack {
        Put(i, Range(r.start, r.len, true));
      }
    }

    /** ack_all_badblocks. */
    method AckAll()
      requires Valid() && WellFormed(table)
      modifies `unackedExist, `table, words
      ensures Valid() && table == if !changed && old(unackedExist) then Acked(old(table)) else old(table)
      ensures unackedExist == (changed && old(unackedExist))
      ensures old(Flagged()) ==> Flagged()
    {
      if changed || !unackedExist {
        return;
      }
      ghost var t := table;
      var i := 0;
      while i < count
        invariant i <= count && |t| == count && Valid()
        invariant table == Acked(t[..i]) + t[i..]
      {
        AckStep(t, i);
        AckOne(i);
        i := i + 1;
      }
      assert t[..i] == t && t[i..] == [];
      AckedIsAcked(t);
      unackedExist := false;
    }

    /** badblocks_set, for a number of sectors of at least 1.  `k` ranges start at or before `s`. */
    method Set(s: nat, sectors: nat, ack: bool) returns (ok: bool, ghost k: nat)
      requires Valid() && WellFormed(table) && sectors > 0 && s + sectors <= LIMIT
      modifies this, words
      ensures Before(old(table), k, s + 1)
      ensures Valid() && (ok ==> table == Applied(old(table), Plan(old(table), k, s, sectors, ack)))
      ensures ok == (|Applied(old(table), Plan(old(table), k, s, sectors, ack))| <= MAX_BADBLOCKS)
      ensures changed && unackedExist == (!ack || (old(unackedExist) && !AllAcked(table)))
      ensures old(Flagged()) ==> Flagged()
    {
      ok, k := SetRange(s, sectors, ack);
      changed := true;
      if !ack {
        unackedExist := true;
      } else {
        UpdateAcked();
      }
    }

    method SetRange(s: nat, n: nat, ack: bool) returns (ok: bool, ghost k: nat)
      requires Valid() && WellFormed(table) && n > 0 && s + n <= LIMIT
      modifies `count, `table, words
      ensures Before(old(table), k, s + 1)
      ensures Valid() && (ok ==> table == Applied(old(table), Plan(old(table), k, s, n, ack)))
      ensures ok == (|Applied(old(table), Plan(old(table), k, s, n, ack))| <= MAX_BADBLOCKS)
      ensures ack && AllAcked(old(table)) ==> AllAcked(table)
    {
      var lo, hi := Search(s + 1);
      FoundBefore(table, lo, hi, s + 1);
      if hi > lo {
        var r := Get(lo);
        if r.start > s {
          hi := lo;
        }
      }
      k := hi;
      assert hi > 0 ==> Ok(table[hi - 1]);
      assert hi < count ==> Ok(table[hi]);
      StepsArePlan(table, hi, s, n, ack);
      if ack && AllAcked(table) {
        LowAcked(table, hi, s, n);
      }
      var s1, m := MergeLow(hi, s, n, ack);
      ok := Finish(s1, m, if hi > 0 then hi - 1 else 0, hi, ack);
    }

    /** The attempt to merge with the range before. */
    method MergeLow(hi: nat, s: nat, n: nat, ack: bool) returns (s': nat, m: nat)
      requires Valid() && n > 0 && s + n <= LIMIT && hi <= count
      requires hi > 0 ==> Ok(table[hi - 1]) && table[hi - 1].start <= s
      modifies `table, words
      ensures Valid() && Cursor(table, s', m, if hi > 0 then hi - 1 else 0, hi) == Low(old(table), hi, s, n, ack)
      ensures hi < count ==> table[hi] == old(table)[hi]
      ensures s' + m <= LIMIT && (m == 0 ==> hi > 0)
    {
      s', m := s, n;
      if hi > 0 {
        var r := Get(hi - 1);
        if End(r) >= s {
          var ack1 := if s == r.start && s + n >= End(r) then ack else r.ack && ack;
          var e := if End(r) < s + n then s + n else End(r);
          if e - r.start <= 512 {
            Put(hi - 1, Made(r.start, e - r.start, ack1));
            s' := e;
          } else {
            Put(hi - 1, if r.len != 512 then Range(r.start, 512, ack1) else r);
            s' := r.start + 512;
          }
          m := e - s';
        }
      }
    }

    /** The attempt to merge with the range after, then combining or inserting. */
    method Finish(s: nat, m: nat, lo: nat, hi: nat, ack: bool) returns (ok: bool)
      requires Valid() && s + m <= LIMIT && hi <= count && (hi < count ==> Ok(table[hi])) && (m == 0 ==> lo < count)
      modifies `count, `table, words
      ensures Valid() && (ok ==> table == Finished(High(Cursor(old(table), s, m, lo, hi), ack), ack))
      ensures ok == (|Finished(High(Cursor(old(table), s, m, lo, hi), ack), ack)| <= MAX_BADBLOCKS)
      ensures ack && AllAcked(old(table)) ==> AllAcked(table)
    {
      if ack && AllAcked(table) {
        HighAcked(Cursor(table, s, m, lo, hi));
      }
      var s', m', lo', hi' := MergeHigh(s, m, lo, hi, ack);
      if m' == 0 {
        if AllAcked(table) {
          CombineAcked(table, lo');
        }
        TryCombine(lo');
        ok := true;
      } else {
        ok := InsertChunks(hi', s', m', ack);
      }
    }

    method MergeHigh(s: nat, m: nat, lo: nat, hi: nat, ack: bool) returns (s': nat, m': nat, lo': nat, hi': nat)
      requires Valid() && s + m <= LIMIT && hi <= count && (hi < count ==> Ok(table[hi])) && (m == 0 ==> lo < count)
      modifies `table, words
      ensures Valid() && Cursor(table, s', m', lo', hi') == High(Cursor(old(table), s, m, lo, hi), ack)
      ensures s' + m' <= LIMIT && hi' <= count && (m' == 0 ==> lo' < count)
    {
      s', m', lo', hi' := s, m, lo, hi;
      if m > 0 && hi < count {
        var r := Get(hi);
        if r.start <= s + m {
          var ack2 := if End(r) <= s + m then ack else r.ack && ack;
          var e := if End(r) <= s + m then s + m else End(r);
          if e - s <= 512 {
            Put(hi, Made(s, e - s, ack2));
            s' := e;
          } else {
            Put(hi, Range(s, 512, ack2));
            s' := s + 512;
          }
          m', lo', hi' := e - s', hi, hi + 1;
        }
      }
    }

    /** Combines range `lo` with the next one, if they touch and fit. */
    method TryCombine(lo: nat)
      requires Valid() && lo < count
      modifies `count, `table, words
      ensures Valid() && table == CombineAt(old(table), lo)
    {
      if lo + 1 < count {
        var a := Get(lo);
        var b := Get(lo + 1);
        if End(a) >= b.start {
          var newlen := a.len + b.len - (End(a) - b.start);
          if newlen < 512 {
            CombineJoins(table, lo, newlen);
            Join(lo, Made(a.start, newlen, a.ack && b.ack));
          }
        }
      }
    }

    method Join(lo: nat, r: Range)
      requires Valid() && lo + 1 < count && Storable(r)
      modifies `count, `table, words
      ensures Valid() && table == old(table)[..lo] + [r] + old(table)[lo + 2..]
    {
      PairJoined(table, lo, r);
      Put(lo, r);
      Remove(lo + 1, lo + 2);
    }

    method AddChunk(hi: nat, r: Range, ghost t: Table, ghost done: Table)
      requires Valid() && hi <= |t| && count < MAX_BADBLOCKS && Storable(r) && table == InsertAt(t, hi, done)
      modifies `count, `table, words
      ensures Valid() && table == InsertAt(t, hi, [r] + done) && count == old(count) + 1
      ensures r.ack && AllAcked(old(table)) ==> AllAcked(table)
    {
      InsertFront(t[..hi], done, t[hi..], r);
      if r.ack && AllAcked(table) {
        InsertAcked(table, hi, r);
      }
      Insert(hi, r);
    }

    /** The final loop of badblocks_set. */
    method InsertChunks(hi: nat, start: nat, m: nat, ack: bool) returns (ok: bool)
      requires Valid() && hi <= count && start + m <= LIMIT
      modifies `count, `table, words
      ensures Valid() && ok == (old(count) + |Chunks(start, m, ack)| <= MAX_BADBLOCKS)
      ensures ok ==> table == InsertAt(old(table), hi, Chunks(start, m, ack))
      ensures ack && AllAcked(old(table)) ==> AllAcked(table)
    {
      ghost var t := table;
      ghost var done: Table := [];
      var s, sectors := start, m;
      ghost var all := Chunks(start, m, ack);
      assert table == t[..hi] + [] + t[hi..];
      while sectors > 0
        invariant Valid() && hi <= count == |t| + |done| && s + sectors == start + m
        invariant table == InsertAt(t, hi, done)
        invariant all == Chunks(s, sectors, ack) + done
        invariant ack && AllAcked(t) ==> AllAcked(table)
      {
        ChunksStart(s, sectors, ack);
        ChunksStep(s, sectors, ack, done);
        if count >= MAX_BADBLOCKS {
          return false;
        }
        var chunk := if sectors > 512 then 512 else sectors;
        AddChunk(hi, Range(s, chunk, ack), t, done);
        done := [Range(s, chunk, ack)] + done;
        s, sectors := s + chunk, sectors - chunk;
      }
      ok := true;
    }

    /** memmove towards the end of the page, and one more range. */
    method Insert(hi: nat, r: Range)
      requires Valid() && hi <= count < MAX_BADBLOCKS && Storable(r)
      modifies `count, `table, words
      ensures Valid() && table == old(table)[..hi] + [r] + old(table)[hi..]
    {
      PackedInsert(table, hi, r);
      MoveUp(words, hi, count, Pack(r));
      count := count + 1;
      table := table[..hi] + [r] + table[hi..];
    }

    /** memmove towards the start of the page: the ranges from `lo` up to `hi` go. */
    method Remove(lo: nat, hi: nat)
      requires Valid() && lo <= hi <= count
      modifies `count, `table, words
      ensures Valid() && table == old(table)[..lo] + old(table)[hi..]
    {
      PackedRemove(table, lo, hi);
      MoveDown(words, lo, hi, count);
      count := count - (hi - lo);
      table := table[..lo] + table[hi..];
    }
  }

  method MoveUp(a: array<int>, hi: nat, n: nat, word: int)
    requires hi <= n < a.Length
    modifies a
    ensures a[..n + 1] == old(a[..n])[..hi] + [word] + old(a[..n])[hi..]
  {
    var i := n;
    while i > hi
      invariant hi <= i <= n
      invariant forall j :: 0 <= j < i ==> a[j] == old(a[j])
      invariant forall j :: i < j <= n ==> a[j] == old(a[j - 1])
    {
      a[i] := a[i - 1];
      i := i - 1;
    }
    a[hi] := word;
  }

  method MoveDown(a: array<int>, lo: nat, hi: nat, n: nat)
    requires lo <= hi <= n <= a.Length
    modifies a
    ensures a[..n - (hi - lo)] == old(a[..n])[..lo] + old(a[..n])[hi..]
  {
    var i, d := lo, hi - lo;
    ghost var was := a[..n];
    while i < n - d
      invariant lo <= i <= n - d
      invariant forall j :: 0 <= j < lo ==> a[j] == was[j]
      invariant forall j :: lo <= j < i ==> a[j] == was[j + d]
      invariant forall j :: i <= j < n ==> a[j] == was[j]
    {
      a[i] := a[i + d];
      i := i + 1;
    }
    Shifted(a[..n - d], was, lo, hi);
  }

  lemma Shifted(now: seq<int>, was: seq<int>, lo: nat, hi: nat)
    requires lo <= hi <= |was| && |now| == |was| - (hi - lo)
    requires forall j :: 0 <= j < lo ==> now[j] == was[j]
    requires forall j :: lo <= j < |now| ==> now[j] == was[j + (hi - lo)]
    ensures now == was[..lo] + was[hi..]
  {
  }

  lemma PackedSplit(t: Table, k: nat)
    requires k <= |t|
    ensures Packed(t)[..k] == Packed(t[..k]) && Packed(t)[k..] == Packed(t[k..])
  {
    PackedConcat(t[..k], t[k..]);
    assert t == t[..k] + t[k..];
  }

  lemma PackedInsert(t: Table, hi: nat, r: Range)
    requires hi <= |t|
    ensures Packed(t[..hi] + [r] + t[hi..]) == Packed(t)[..hi] + [Pack(r)] + Packed(t)[hi..]
  {
    PackedConcat(t[..hi] + [r], t[hi..]);
    PackedConcat(t[..hi], [r]);
    PackedSplit(t, hi);
    assert [r][..0] == [];
  }

  lemma PackedRemove(t: Table, lo: nat, hi: nat)
    requires lo <= hi <= |t|
    ensures Packed(t[..lo] + t[hi..]) == Packed(t)[..lo] + Packed(t)[hi..]
  {
    PackedConcat(t[..lo], t[hi..]);
    PackedSplit(t, lo);
    PackedSplit(t, hi);
  }
}
