/** What a scatter list covers: the physical bytes of the vectors it was made of, in order. */
module ScatterLists {
  import opened Segments

  /** bvec_to_phys, given page_to_phys. */
  function Phys(base: nat -> nat, a: Bvec): nat {
    base(a.page) + a.offset
  }

  /** BIOVEC_PHYS_MERGEABLE holds of vectors only where one ends at the address the other starts at. */
  ghost predicate Adjoins(q: Limits, base: nat -> nat) {
    forall a, b :: q.physMergeable(a, b) ==> Phys(base, a) + a.len == Phys(base, b)
  }

  /** The physical addresses of a stretch of memory, of vectors, and of a scatter list, byte by byte and in order. */
  function Stretch(start: nat, len: nat): (r: seq<nat>)
    ensures |r| == len
  {
    if len == 0 then [] else Stretch(start, len - 1) + [start + len - 1]
  }

  function Addresses(base: nat -> nat, vs: Seg): seq<nat> {
    if vs == [] then [] else Addresses(base, Front(vs)) + Stretch(Phys(base, Last(vs)), Last(vs).len)
  }

  function SgAddresses(base: nat -> nat, sg: seq<Sg>): seq<nat> {
    if sg == [] then [] else SgAddresses(base, Front(sg)) + Stretch(base(Last(sg).page) + Last(sg).offset, Last(sg).length)
  }

  lemma Regroup<T>(a: seq<T>, b: seq<T>, c: seq<T>)
    ensures (a + b) + c == a + (b + c)
  {
  }

  lemma {:induction false} StretchJoins(start: nat, m: nat, n: nat)
    ensures Stretch(start, m) + Stretch(start + m, n) == Stretch(start, m + n)
  {
    if n == 0 {
      assert Stretch(start, m) + [] == Stretch(start, m);
    } else {
      StretchJoins(start, m, n - 1);
      Regroup(Stretch(start, m), Stretch(start + m, n - 1), [start + m + n - 1]);
    }
  }

  lemma {:induction false} AddressesConcat(base: nat -> nat, a: Seg, b: Seg)
    ensures Addresses(base, a + b) == Addresses(base, a) + Addresses(base, b)
  {
    if b == [] {
      assert a + b == a;
    } else {
      assert Front(a + b) == a + Front(b);
      AddressesConcat(base, a, Front(b));
      Regroup(Addresses(base, a), Addresses(base, Front(b)), Stretch(Phys(base, Last(b)), Last(b).len));
    }
  }

  lemma AddressesOne(base: nat -> nat, a: Bvec)
    ensures Addresses(base, [a]) == Stretch(Phys(base, a), a.len) && Size([a]) == a.len
  {
    assert Front([a]) == [];
  }

  lemma {:induction false} SegmentEnds(q: Limits, base: nat -> nat, s: Seg)
    requires s != [] && Chained(q, s) && Adjoins(q, base)
    ensures Phys(base, s[0]) + Size(s) == Phys(base, Last(s)) + Last(s).len
  {
    if |s| == 1 {
      assert s == [s[0]];
      AddressesOne(base, s[0]);
    } else {
      SegmentEnds(q, base, Front(s));
      assert q.physMergeable(s[|s| - 2], s[|s| - 1]);
    }
  }

  lemma StretchGrows(base: nat -> nat, s: Seg, start: nat)
    requires s != [] && Addresses(base, Front(s)) == Stretch(start, Size(Front(s))) && Phys(base, Last(s)) == start + Size(Front(s))
    ensures Addresses(base, s) == Stretch(start, Size(s))
  {
    StretchJoins(start, Size(Front(s)), Last(s).len);
  }

  /** A segment is one stretch of memory. */
  lemma {:induction false} SegmentIsStretch(q: Limits, base: nat -> nat, s: Seg)
    requires s != [] && Chained(q, s) && Adjoins(q, base)
    ensures Addresses(base, s) == Stretch(Phys(base, s[0]), Size(s))
  {
    if |s| == 1 {
      assert s == [s[0]];
      AddressesOne(base, s[0]);
    } else {
      SegmentIsStretch(q, base, Front(s));
      SegmentEnds(q, base, Front(s));
      assert q.physMergeable(s[|s| - 2], s[|s| - 1]);
      StretchGrows(base, s, Phys(base, s[0]));
    }
  }

  lemma SgAppend(base: nat -> nat, sg: seq<Sg>, s: Seg)
    requires s != []
    ensures SgAddresses(base, sg + [SgOf(s)]) == SgAddresses(base, sg) + Stretch(Phys(base, s[0]), Size(s))
  {
    assert Front(sg + [SgOf(s)]) == sg;
  }

  lemma ValidFront(q: Limits, v: seq<Seg>)
    requires Valid(q, v) && v != []
    ensures Valid(q, Front(v)) && ValidSeg(q, Last(v))
  {
  }

  lemma {:induction false} ListCovers(q: Limits, base: nat -> nat, v: seq<Seg>)
    requires Valid(q, v) && Adjoins(q, base)
    ensures SgAddresses(base, SgList(v)) == Addresses(base, Flat(v))
  {
    if v != [] {
      ValidFront(q, v);
      ListCovers(q, base, Front(v));
      SgAppend(base, SgList(Front(v)), Last(v));
      SegmentIsStretch(q, base, Last(v));
      AddressesConcat(base, Flat(Front(v)), Last(v));
    }
  }

  /** The scatter list covers exactly the bytes of the vectors, in order. */
  lemma MapCovers(q: Limits, base: nat -> nat, bvs: Seg)
    requires Adjoins(q, base)
    ensures SgAddresses(base, SgList(Greedy(q, bvs))) == Addresses(base, bvs)
  {
    GreedyCuts(q, bvs);
    ListCovers(q, base, Greedy(q, bvs));
  }
}
