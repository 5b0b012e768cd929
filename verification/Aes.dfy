/** The table-driven AES of crypto/aes_generic.c against FIPS-197.

    A 32-bit word holds a column of the state, row 0 in its low byte.  The S-box tables are
    parameters: what the code needs of them is that they are built from an S-box and its inverse.
    Multiplication by x in GF(2^8) is a parameter of the definitions too, with the laws it obeys;
    Gf is the one of section 4.2.1 of FIPS-197, and GfLaws shows that it obeys them.
 */
module Aes {

  // ---------------------------------------------------------------- bytes

  function Xor(a: bv8, b: bv8): bv8 {
    a ^ b
  }

  function Xor4(a: bv8, b: bv8, c: bv8, d: bv8): bv8 {
    Xor(Xor(Xor(a, b), c), d)
  }

  /** xtime: multiplication by x. */
  function XTime(a: bv8): bv8 {
    (a << 1) ^ (if a & 0x80 != 0 then 0x1b else 0)
  }

  datatype Field = Field(x: bv8 -> bv8)

  const Gf: Field := Field(XTime)

  function Mul3(f: Field, a: bv8): bv8 {
    Xor(f.x(a), a)
  }

  function Mul9(f: Field, a: bv8): bv8 {
    Xor(f.x(f.x(f.x(a))), a)
  }

  function MulB(f: Field, a: bv8): bv8 {
    Xor(Xor(f.x(f.x(f.x(a))), f.x(a)), a)
  }

  function MulD(f: Field, a: bv8): bv8 {
    Xor(Xor(f.x(f.x(f.x(a))), f.x(f.x(a))), a)
  }

  function MulE(f: Field, a: bv8): bv8 {
    Xor(Xor(f.x(f.x(f.x(a))), f.x(f.x(a))), f.x(a))
  }

  predicate Adds(f: Field, a: bv8, b: bv8) {
    f.x(Xor(a, b)) == Xor(f.x(a), f.x(b))
  }

  ghost predicate Additive(f: Field) {
    forall a, b :: Adds(f, a, b)
  }

  // Rearranging sums.

  lemma Assoc(a: bv8, b: bv8, c: bv8)
    ensures Xor(Xor(a, b), c) == Xor(a, Xor(b, c))
  {
  }

  lemma Comm(a: bv8, b: bv8)
    ensures Xor(a, b) == Xor(b, a)
  {
  }

  lemma Cancel(a: bv8, b: bv8)
    ensures Xor(a, a) == 0 && Xor(a, 0) == a && Xor(Xor(a, b), b) == a
  {
  }

  lemma Swap2(p: bv8, q: bv8, a: bv8, b: bv8)
    ensures Xor(Xor(p, q), Xor(a, b)) == Xor(Xor(p, a), Xor(q, b))
  {
    Assoc(p, q, Xor(a, b));
    Assoc(q, a, b);
    Comm(q, a);
    Assoc(a, q, b);
    Assoc(p, a, Xor(q, b));
  }

  lemma Swap3(p: bv8, q: bv8, r: bv8, t: bv8, a: bv8, b: bv8)
    ensures Xor(Xor(Xor(p, q), Xor(r, t)), Xor(a, b)) == Xor(Xor(Xor(p, r), a), Xor(Xor(q, t), b))
  {
    Swap2(p, q, r, t);
    Swap2(Xor(p, r), Xor(q, t), a, b);
  }

  lemma Swap4(a: bv8, e: bv8, b: bv8, g: bv8, c: bv8, h: bv8, d: bv8, i: bv8)
    ensures Xor4(Xor(a, e), Xor(b, g), Xor(c, h), Xor(d, i)) == Xor(Xor4(a, b, c, d), Xor4(e, g, h, i))
  {
    Swap3(a, e, b, g, c, h);
    Swap2(Xor(Xor(a, b), c), Xor(Xor(e, g), h), d, i);
  }

  /** Summing a square of terms by rows or by columns. */
  lemma Transpose(a1: bv8, a2: bv8, a3: bv8, a4: bv8, b1: bv8, b2: bv8, b3: bv8, b4: bv8,
                  c1: bv8, c2: bv8, c3: bv8, c4: bv8, d1: bv8, d2: bv8, d3: bv8, d4: bv8)
    ensures Xor4(Xor4(a1, a2, a3, a4), Xor4(b1, b2, b3, b4), Xor4(c1, c2, c3, c4), Xor4(d1, d2, d3, d4)) ==
            Xor4(Xor4(a1, b1, c1, d1), Xor4(a2, b2, c2, d2), Xor4(a3, b3, c3, d3), Xor4(a4, b4, c4, d4))
  {
    Swap4(Xor(Xor(a1, a2), a3), a4, Xor(Xor(b1, b2), b3), b4, Xor(Xor(c1, c2), c3), c4, Xor(Xor(d1, d2), d3), d4);
    Swap4(Xor(a1, a2), a3, Xor(b1, b2), b3, Xor(c1, c2), c3, Xor(d1, d2), d3);
    Swap4(a1, a2, b1, b2, c1, c2, d1, d2);
  }

  lemma Powers(f: Field, a: bv8, b: bv8)
    requires Additive(f)
    ensures f.x(Xor(a, b)) == Xor(f.x(a), f.x(b))
    ensures f.x(f.x(Xor(a, b))) == Xor(f.x(f.x(a)), f.x(f.x(b)))
    ensures f.x(f.x(f.x(Xor(a, b)))) == Xor(f.x(f.x(f.x(a))), f.x(f.x(f.x(b))))
  {
    assert Adds(f, a, b) && Adds(f, f.x(a), f.x(b)) && Adds(f, f.x(f.x(a)), f.x(f.x(b)));
  }

  lemma Mul9Adds(f: Field, a: bv8, b: bv8)
    requires Additive(f)
    ensures Mul9(f, Xor(a, b)) == Xor(Mul9(f, a), Mul9(f, b))
  {
    Powers(f, a, b);
    Swap2(f.x(f.x(f.x(a))), f.x(f.x(f.x(b))), a, b);
  }

  lemma MulBAdds(f: Field, a: bv8, b: bv8)
    requires Additive(f)
    ensures MulB(f, Xor(a, b)) == Xor(MulB(f, a), MulB(f, b))
  {
    Powers(f, a, b);
    Swap3(f.x(f.x(f.x(a))), f.x(f.x(f.x(b))), f.x(a), f.x(b), a, b);
  }

  lemma MulDAdds(f: Field, a: bv8, b: bv8)
    requires Additive(f)
    ensures MulD(f, Xor(a, b)) == Xor(MulD(f, a), MulD(f, b))
  {
    Powers(f, a, b);
    Swap3(f.x(f.x(f.x(a))), f.x(f.x(f.x(b))), f.x(f.x(a)), f.x(f.x(b)), a, b);
  }

  lemma MulEAdds(f: Field, a: bv8, b: bv8)
    requires Additive(f)
    ensures MulE(f, Xor(a, b)) == Xor(MulE(f, a), MulE(f, b))
  {
    Powers(f, a, b);
    Swap3(f.x(f.x(f.x(a))), f.x(f.x(f.x(b))), f.x(f.x(a)), f.x(f.x(b)), f.x(a), f.x(b));
  }

  // ---------------------------------------------------------------- MixColumns on bytes

  /** A row of MixColumns and one of InvMixColumns: sections 5.1.3 and 5.3.3 of FIPS-197. */
  function MixRow(f: Field, a: bv8, b: bv8, c: bv8, d: bv8): bv8 {
    Xor4(f.x(a), Mul3(f, b), c, d)
  }

  function InvMixRow(f: Field, a: bv8, b: bv8, c: bv8, d: bv8): bv8 {
    Xor4(MulE(f, a), MulB(f, b), MulD(f, c), Mul9(f, d))
  }

  lemma InvMixRowAdds(f: Field, a: bv8, b: bv8, c: bv8, d: bv8, e: bv8, g: bv8, h: bv8, i: bv8)
    requires Additive(f)
    ensures InvMixRow(f, Xor(a, e), Xor(b, g), Xor(c, h), Xor(d, i)) == Xor(InvMixRow(f, a, b, c, d), InvMixRow(f, e, g, h, i))
  {
    MulEAdds(f, a, e);
    MulBAdds(f, b, g);
    MulDAdds(f, c, h);
    Mul9Adds(f, d, i);
    Swap4(MulE(f, a), MulE(f, e), MulB(f, b), MulB(f, g), MulD(f, c), MulD(f, h), Mul9(f, d), Mul9(f, i));
  }

  lemma MulE4(f: Field, a: bv8, b: bv8, c: bv8, d: bv8)
    requires Additive(f)
    ensures MulE(f, Xor4(a, b, c, d)) == Xor4(MulE(f, a), MulE(f, b), MulE(f, c), MulE(f, d))
  {
    MulEAdds(f, Xor(Xor(a, b), c), d);
    MulEAdds(f, Xor(a, b), c);
    MulEAdds(f, a, b);
  }

  lemma MulB4(f: Field, a: bv8, b: bv8, c: bv8, d: bv8)
    requires Additive(f)
    ensures MulB(f, Xor4(a, b, c, d)) == Xor4(MulB(f, a), MulB(f, b), MulB(f, c), MulB(f, d))
  {
    MulBAdds(f, Xor(Xor(a, b), c), d);
    MulBAdds(f, Xor(a, b), c);
    MulBAdds(f, a, b);
  }

  lemma MulD4(f: Field, a: bv8, b: bv8, c: bv8, d: bv8)
    requires Additive(f)
    ensures MulD(f, Xor4(a, b, c, d)) == Xor4(MulD(f, a), MulD(f, b), MulD(f, c), MulD(f, d))
  {
    MulDAdds(f, Xor(Xor(a, b), c), d);
    MulDAdds(f, Xor(a, b), c);
    MulDAdds(f, a, b);
  }

  lemma Mul94(f: Field, a: bv8, b: bv8, c: bv8, d: bv8)
    requires Additive(f)
    ensures Mul9(f, Xor4(a, b, c, d)) == Xor4(Mul9(f, a), Mul9(f, b), Mul9(f, c), Mul9(f, d))
  {
    Mul9Adds(f, Xor(Xor(a, b), c), d);
    Mul9Adds(f, Xor(a, b), c);
    Mul9Adds(f, a, b);
  }

  lemma Rotate(p: bv8, q: bv8, r: bv8, t: bv8)
    ensures Xor4(p, q, r, t) == Xor4(t, p, q, r)
  {
    Comm(Xor(Xor(p, q), r), t);
    Assoc(Xor(p, q), r, t);
    Assoc(t, Xor(p, q), r);
    Assoc(t, p, q);
  }

  lemma LeavesA(a: bv8, a1: bv8, a2: bv8, a3: bv8, a4: bv8)
    ensures Xor4(Xor(Xor(a4, a3), a2), Xor(Xor(a3, a1), a), Xor(Xor(a3, a2), a), Xor(Xor(a4, a1), Xor(a3, a))) == a
  {
  }

  lemma Swap(a: bv8, b: bv8, c: bv8)
    ensures Xor(Xor(a, b), c) == Xor(Xor(a, c), b)
  {
    Assoc(a, b, c);
    Comm(b, c);
    Assoc(a, c, b);
  }

  lemma Meet(p: bv8, b: bv8, q: bv8)
    ensures Xor(Xor(p, b), Xor(b, q)) == Xor(p, q)
  {
    Assoc(Xor(p, b), b, q);
    Cancel(p, b);
  }

  lemma Cancel3(a: bv8, b: bv8, c: bv8)
    ensures Xor(Xor(a, Xor(b, c)), Xor(b, a)) == c
  {
    Assoc(a, b, c);
    Comm(b, a);
    Comm(Xor(a, b), c);
    Cancel(c, Xor(a, b));
  }

  lemma LeavesB(b: bv8, b1: bv8, b2: bv8, b3: bv8, b4: bv8)
    ensures Xor4(Xor(Xor(Xor(b4, b3), b2), Xor(Xor(b3, b2), b1)), Xor(Xor(b4, b2), b1), Xor(Xor(b3, b2), b), Xor(b3, b)) == 0
  {
    Assoc(b4, b3, b2);
    Meet(b4, Xor(b3, b2), b1);
    Swap(b4, b2, b1);
    Comm(Xor(b4, b1), b2);
    Cancel(b2, Xor(b4, b1));
    Comm(Xor(b4, b1), Xor(b2, Xor(b4, b1)));
    Swap(b3, b2, b);
    Comm(Xor(b3, b), b2);
    Comm(b2, Xor(b2, Xor(b3, b)));
    Comm(b2, Xor(b3, b));
    Cancel(Xor(b3, b), b2);
    Cancel(Xor(b3, b), 0);
  }

  lemma LeavesC(c: bv8, c1: bv8, c2: bv8, c3: bv8, c4: bv8)
    ensures Xor4(Xor(Xor(c3, c2), c1), Xor(Xor(Xor(c4, c2), c1), Xor(Xor(c3, c1), c)), Xor(Xor(c4, c3), c1), Xor(c3, c)) == 0
  {
    var n := Xor(c3, c);
    Comm(c3, c1);
    Assoc(c1, c3, c);
    Meet(Xor(c4, c2), c1, n);
    Swap(c3, c2, c1);
    Comm(c4, c2);
    Assoc(c2, c4, n);
    Meet(Xor(c3, c1), c2, Xor(c4, n));
    Assoc(c4, c3, c1);
    Cancel3(Xor(c3, c1), c4, n);
    Cancel(n, 0);
  }

  lemma LeavesD(d: bv8, d1: bv8, d2: bv8, d3: bv8, d4: bv8)
    ensures Xor4(Xor(Xor(d3, d2), d1), Xor(Xor(d3, d1), d), Xor(Xor(Xor(d4, d3), d1), Xor(Xor(d3, d2), d)), Xor(d4, d1)) == 0
  {
    Swap(d3, d2, d1);
    Comm(Xor(d3, d1), d2);
    Meet(d2, Xor(d3, d1), d);
    Swap(d4, d3, d1);
    Assoc(d3, d2, d);
    Meet(Xor(d4, d1), d3, Xor(d2, d));
    Comm(Xor(d4, d1), Xor(d2, d));
    Comm(Xor(d2, d), Xor(Xor(d2, d), Xor(d4, d1)));
    Comm(Xor(d2, d), Xor(d4, d1));
    Cancel(Xor(d4, d1), Xor(d2, d));
    Cancel(Xor(d4, d1), 0);
  }

  /** The matrices of MixColumns and InvMixColumns are inverse, entry by entry. */
  lemma Entries(f: Field, a: bv8)
    requires Additive(f)
    ensures Xor4(MulE(f, f.x(a)), MulB(f, a), MulD(f, a), Mul9(f, Mul3(f, a))) == a
    ensures Xor4(MulE(f, Mul3(f, a)), MulB(f, f.x(a)), MulD(f, a), Mul9(f, a)) == 0
    ensures Xor4(MulE(f, a), MulB(f, Mul3(f, a)), MulD(f, f.x(a)), Mul9(f, a)) == 0
    ensures Xor4(MulE(f, a), MulB(f, a), MulD(f, Mul3(f, a)), Mul9(f, f.x(a))) == 0
  {
    var (a1, a2) := (f.x(a), f.x(f.x(a)));
    var (a3, a4) := (f.x(a2), f.x(f.x(a2)));
    Mul9Adds(f, a1, a);
    MulEAdds(f, a1, a);
    MulBAdds(f, a1, a);
    MulDAdds(f, a1, a);
    LeavesA(a, a1, a2, a3, a4);
    LeavesB(a, a1, a2, a3, a4);
    LeavesC(a, a1, a2, a3, a4);
    LeavesD(a, a1, a2, a3, a4);
  }

  lemma RowInverse(f: Field, a: bv8, b: bv8, c: bv8, d: bv8)
    requires Additive(f)
    ensures InvMixRow(f, MixRow(f, a, b, c, d), MixRow(f, b, c, d, a), MixRow(f, c, d, a, b), MixRow(f, d, a, b, c)) == a
  {
    MulE4(f, f.x(a), Mul3(f, b), c, d);
    MulB4(f, f.x(b), Mul3(f, c), d, a);
    Rotate(MulB(f, f.x(b)), MulB(f, Mul3(f, c)), MulB(f, d), MulB(f, a));
    MulD4(f, f.x(c), Mul3(f, d), a, b);
    Rotate(MulD(f, f.x(c)), MulD(f, Mul3(f, d)), MulD(f, a), MulD(f, b));
    Rotate(MulD(f, b), MulD(f, f.x(c)), MulD(f, Mul3(f, d)), MulD(f, a));
    Mul94(f, f.x(d), Mul3(f, a), b, c);
    Rotate(Mul9(f, Mul3(f, a)), Mul9(f, b), Mul9(f, c), Mul9(f, f.x(d)));
    Transpose(MulE(f, f.x(a)), MulE(f, Mul3(f, b)), MulE(f, c), MulE(f, d),
              MulB(f, a), MulB(f, f.x(b)), MulB(f, Mul3(f, c)), MulB(f, d),
              MulD(f, a), MulD(f, b), MulD(f, f.x(c)), MulD(f, Mul3(f, d)),
              Mul9(f, Mul3(f, a)), Mul9(f, b), Mul9(f, c), Mul9(f, f.x(d)));
    Entries(f, a);
    Entries(f, b);
    Entries(f, c);
    Entries(f, d);
    Cancel(a, 0);
  }

  // ---------------------------------------------------------------- columns and words

  datatype Col = Col(b0: bv8, b1: bv8, b2: bv8, b3: bv8)

  function XorCol(c: Col, d: Col): Col {
    Col(Xor(c.b0, d.b0), Xor(c.b1, d.b1), Xor(c.b2, d.b2), Xor(c.b3, d.b3))
  }

  function MixCol(f: Field, c: Col): Col {
    Col(MixRow(f, c.b0, c.b1, c.b2, c.b3), MixRow(f, c.b1, c.b2, c.b3, c.b0),
        MixRow(f, c.b2, c.b3, c.b0, c.b1), MixRow(f, c.b3, c.b0, c.b1, c.b2))
  }

  function InvMixCol(f: Field, c: Col): Col {
    Col(InvMixRow(f, c.b0, c.b1, c.b2, c.b3), InvMixRow(f, c.b1, c.b2, c.b3, c.b0),
        InvMixRow(f, c.b2, c.b3, c.b0, c.b1), InvMixRow(f, c.b3, c.b0, c.b1, c.b2))
  }

  lemma InvMixOfMix(f: Field, c: Col)
    requires Additive(f)
    ensures InvMixCol(f, MixCol(f, c)) == c
  {
    RowInverse(f, c.b0, c.b1, c.b2, c.b3);
    RowInverse(f, c.b1, c.b2, c.b3, c.b0);
    RowInverse(f, c.b2, c.b3, c.b0, c.b1);
    RowInverse(f, c.b3, c.b0, c.b1, c.b2);
  }

  lemma InvMixAdds(f: Field, c: Col, d: Col)
    requires Additive(f)
    ensures InvMixCol(f, XorCol(c, d)) == XorCol(InvMixCol(f, c), InvMixCol(f, d))
  {
    InvMixRowAdds(f, c.b0, c.b1, c.b2, c.b3, d.b0, d.b1, d.b2, d.b3);
    InvMixRowAdds(f, c.b1, c.b2, c.b3, c.b0, d.b1, d.b2, d.b3, d.b0);
    InvMixRowAdds(f, c.b2, c.b3, c.b0, c.b1, d.b2, d.b3, d.b0, d.b1);
    InvMixRowAdds(f, c.b3, c.b0, c.b1, c.b2, d.b3, d.b0, d.b1, d.b2);
  }

  function XorW(x: bv32, y: bv32): bv32 {
    x ^ y
  }

  function Word(c: Col): bv32 {
    (c.b0 as bv32) | ((c.b1 as bv32) << 8) | ((c.b2 as bv32) << 16) | ((c.b3 as bv32) << 24)
  }

  /** byte(x, n). */
  function Byte(x: bv32, n: nat): bv8
    requires n < 4
  {
    if n == 0 then (x & 0xff) as bv8
    else if n == 1 then ((x >> 8) & 0xff) as bv8
    else if n == 2 then ((x >> 16) & 0xff) as bv8
    else ((x >> 24) & 0xff) as bv8
  }

  function Bytes(x: bv32): Col {
    Col(Byte(x, 0), Byte(x, 1), Byte(x, 2), Byte(x, 3))
  }

  lemma BytesOfWord(c: Col)
    ensures Bytes(Word(c)) == c
  {
  }

  lemma WordOfBytes(x: bv32)
    ensures Word(Bytes(x)) == x
  {
  }

  lemma WordXor(c: Col, d: Col)
    ensures XorW(Word(c), Word(d)) == Word(XorCol(c, d))
  {
  }

  // ---------------------------------------------------------------- star_x and imix_col

  /** star_x: multiplication by x of the four bytes of a word at once. */
  function StarX(w: bv32): bv32 {
    ((w & 0x7f7f7f7f) << 1) ^ (((w & 0x80808080) >> 7) * 0x1b)
  }

  function TimesX(f: Field, c: Col): Col {
    Col(f.x(c.b0), f.x(c.b1), f.x(c.b2), f.x(c.b3))
  }

  predicate Lanes(f: Field, c: Col) {
    StarX(Word(c)) == Word(TimesX(f, c))
  }

  ghost predicate Laws(f: Field) {
    Additive(f) && forall c: Col :: Lanes(f, c)
  }

  lemma XTimeAdds(a: bv8, b: bv8)
    ensures XTime(Xor(a, b)) == Xor(XTime(a), XTime(b))
  {
    if a & 0x80 != 0 {
      if b & 0x80 != 0 {
      } else {
      }
    } else {
      if b & 0x80 != 0 {
      } else {
      }
    }
  }

  lemma StarByte0(w: bv32)
    ensures Byte(StarX(w), 0) == XTime(Byte(w, 0))
  {
  }

  lemma StarByte1(w: bv32)
    ensures Byte(StarX(w), 1) == XTime(Byte(w, 1))
  {
  }

  lemma StarByte2(w: bv32)
    ensures Byte(StarX(w), 2) == XTime(Byte(w, 2))
  {
  }

  lemma StarByte3(w: bv32)
    ensures Byte(StarX(w), 3) == XTime(Byte(w, 3))
  {
  }

  lemma StarBytes(w: bv32)
    ensures Bytes(StarX(w)) == TimesX(Gf, Bytes(w))
  {
    StarByte0(w);
    StarByte1(w);
    StarByte2(w);
    StarByte3(w);
  }

  lemma StarLanes(c: Col)
    ensures Lanes(Gf, c)
  {
    BytesOfWord(c);
    StarBytes(Word(c));
    WordOfBytes(StarX(Word(c)));
  }

  /** Multiplication by x in GF(2^8) is additive, and star_x is four of them at once. */
  lemma GfLaws()
    ensures Laws(Gf)
  {
    forall a, b ensures Adds(Gf, a, b) {
      XTimeAdds(a, b);
    }
    forall c: Col ensures Lanes(Gf, c) {
      StarLanes(c);
    }
  }

  function Ror8(x: bv32): bv32 {
    (x >> 8) | (x << 24)
  }

  function Ror16(x: bv32): bv32 {
    (x >> 16) | (x << 16)
  }

  function Ror24(x: bv32): bv32 {
    (x >> 24) | (x << 8)
  }

  lemma Ror8Bytes(w: bv32)
    ensures Byte(Ror8(w), 0) == Byte(w, 1) && Byte(Ror8(w), 1) == Byte(w, 2)
    ensures Byte(Ror8(w), 2) == Byte(w, 3) && Byte(Ror8(w), 3) == Byte(w, 0)
  {
  }

  lemma Ror16Bytes(w: bv32)
    ensures Byte(Ror16(w), 0) == Byte(w, 2) && Byte(Ror16(w), 1) == Byte(w, 3)
    ensures Byte(Ror16(w), 2) == Byte(w, 0) && Byte(Ror16(w), 3) == Byte(w, 1)
  {
  }

  lemma Ror24Bytes(w: bv32)
    ensures Byte(Ror24(w), 0) == Byte(w, 3) && Byte(Ror24(w), 1) == Byte(w, 0)
    ensures Byte(Ror24(w), 2) == Byte(w, 1) && Byte(Ror24(w), 3) == Byte(w, 2)
  {
  }

  lemma Ror8Word(c: Col)
    ensures Ror8(Word(c)) == Word(Col(c.b1, c.b2, c.b3, c.b0))
  {
    BytesOfWord(c);
    Ror8Bytes(Word(c));
    WordOfBytes(Ror8(Word(c)));
  }

  lemma Ror16Word(c: Col)
    ensures Ror16(Word(c)) == Word(Col(c.b2, c.b3, c.b0, c.b1))
  {
    BytesOfWord(c);
    Ror16Bytes(Word(c));
    WordOfBytes(Ror16(Word(c)));
  }

  lemma Ror24Word(c: Col)
    ensures Ror24(Word(c)) == Word(Col(c.b3, c.b0, c.b1, c.b2))
  {
    BytesOfWord(c);
    Ror24Bytes(Word(c));
    WordOfBytes(Ror24(Word(c)));
  }

  /** imix_col. */
  function ImixCol(x: bv32): bv32 {
    var u := StarX(x);
    var v := StarX(u);
    var w := StarX(v);
    var t := XorW(w, x);
    XorW(XorW(XorW(u, v), w), XorW(XorW(Ror8(XorW(u, t)), Ror16(XorW(v, t))), Ror24(t)))
  }

  /** The terms of imix_col, column by column. */
  function ImixTerms(f: Field, c: Col): Col {
    var u := TimesX(f, c);
    var v := TimesX(f, u);
    var w := TimesX(f, v);
    var t := XorCol(w, c);
    var (ut, vt) := (XorCol(u, t), XorCol(v, t));
    XorCol(XorCol(XorCol(u, v), w),
           XorCol(XorCol(Col(ut.b1, ut.b2, ut.b3, ut.b0), Col(vt.b2, vt.b3, vt.b0, vt.b1)), Col(t.b3, t.b0, t.b1, t.b2)))
  }

  lemma ImixOnWords(f: Field, c: Col)
    requires Laws(f)
    ensures ImixCol(Word(c)) == Word(ImixTerms(f, c))
  {
    var u := TimesX(f, c);
    var v := TimesX(f, u);
    var w := TimesX(f, v);
    assert Lanes(f, c) && Lanes(f, u) && Lanes(f, v);
    var t := XorCol(w, c);
    WordXor(w, c);
    var (ut, vt) := (XorCol(u, t), XorCol(v, t));
    WordXor(u, t);
    WordXor(v, t);
    Ror8Word(ut);
    Ror16Word(vt);
    Ror24Word(t);
    WordXor(u, v);
    WordXor(XorCol(u, v), w);
    var (b, d, e) := (Col(ut.b1, ut.b2, ut.b3, ut.b0), Col(vt.b2, vt.b3, vt.b0, vt.b1), Col(t.b3, t.b0, t.b1, t.b2));
    WordXor(b, d);
    WordXor(XorCol(b, d), e);
    WordXor(XorCol(XorCol(u, v), w), XorCol(XorCol(b, d), e));
  }

  /** One byte of imix_col is one row of InvMixColumns. */
  lemma ImixRow(f: Field, a: bv8, b: bv8, c: bv8, d: bv8)
    ensures var (u, v, w) := (f.x(a), f.x(f.x(a)), f.x(f.x(f.x(a))));
      var (ub, tb) := (f.x(b), Xor(f.x(f.x(f.x(b))), b));
      var (vc, tc) := (f.x(f.x(c)), Xor(f.x(f.x(f.x(c))), c));
      Xor(Xor(Xor(u, v), w), Xor(Xor(Xor(ub, tb), Xor(vc, tc)), Xor(f.x(f.x(f.x(d))), d))) == InvMixRow(f, a, b, c, d)
  {
    var (u, v, w) := (f.x(a), f.x(f.x(a)), f.x(f.x(f.x(a))));
    Comm(Xor(u, v), w);
    Comm(u, v);
    Assoc(w, v, u);
    var (ub, tb) := (f.x(b), Xor(f.x(f.x(f.x(b))), b));
    Comm(ub, tb);
    Swap(f.x(f.x(f.x(b))), b, ub);
    var (vc, tc) := (f.x(f.x(c)), Xor(f.x(f.x(f.x(c))), c));
    Comm(vc, tc);
    Swap(f.x(f.x(f.x(c))), c, vc);
    Assoc(MulE(f, a), Xor(MulB(f, b), MulD(f, c)), Mul9(f, d));
    Assoc(MulE(f, a), MulB(f, b), MulD(f, c));
  }

  /** imix_col is InvMixColumns on one column. */
  lemma ImixIsInvMix(f: Field, c: Col)
    requires Laws(f)
    ensures ImixCol(Word(c)) == Word(InvMixCol(f, c))
  {
    ImixOnWords(f, c);
    ImixRow(f, c.b0, c.b1, c.b2, c.b3);
    ImixRow(f, c.b1, c.b2, c.b3, c.b0);
    ImixRow(f, c.b2, c.b3, c.b0, c.b1);
    ImixRow(f, c.b3, c.b0, c.b1, c.b2);
    assert ImixTerms(f, c) == InvMixCol(f, c);
  }

  // ---------------------------------------------------------------- the state and its transformations

  datatype Block = Block(c0: Col, c1: Col, c2: Col, c3: Col)

  /** An S-box and its inverse. */
  datatype Sbox = Sbox(s: bv8 -> bv8, inv: bv8 -> bv8)

  predicate Undone(sb: Sbox, a: bv8) {
    sb.inv(sb.s(a)) == a
  }

  ghost predicate Inverse(sb: Sbox) {
    forall a :: Undone(sb, a)
  }

  function SubCol(s: bv8 -> bv8, c: Col): Col {
    Col(s(c.b0), s(c.b1), s(c.b2), s(c.b3))
  }

  /** SubBytes, and InvSubBytes with the inverse S-box. */
  function SubBytes(s: bv8 -> bv8, b: Block): Block {
    Block(SubCol(s, b.c0), SubCol(s, b.c1), SubCol(s, b.c2), SubCol(s, b.c3))
  }

  function Diagonal(a: Col, b: Col, c: Col, d: Col): Col {
    Col(a.b0, b.b1, c.b2, d.b3)
  }

  function ShiftRows(b: Block): Block {
    Block(Diagonal(b.c0, b.c1, b.c2, b.c3), Diagonal(b.c1, b.c2, b.c3, b.c0),
          Diagonal(b.c2, b.c3, b.c0, b.c1), Diagonal(b.c3, b.c0, b.c1, b.c2))
  }

  function InvShiftRows(b: Block): Block {
    Block(Diagonal(b.c0, b.c3, b.c2, b.c1), Diagonal(b.c1, b.c0, b.c3, b.c2),
          Diagonal(b.c2, b.c1, b.c0, b.c3), Diagonal(b.c3, b.c2, b.c1, b.c0))
  }

  function MixColumns(f: Field, b: Block): Block {
    Block(MixCol(f, b.c0), MixCol(f, b.c1), MixCol(f, b.c2), MixCol(f, b.c3))
  }

  function InvMixColumns(f: Field, b: Block): Block {
    Block(InvMixCol(f, b.c0), InvMixCol(f, b.c1), InvMixCol(f, b.c2), InvMixCol(f, b.c3))
  }

  function AddKey(b: Block, k: Block): Block {
    Block(XorCol(b.c0, k.c0), XorCol(b.c1, k.c1), XorCol(b.c2, k.c2), XorCol(b.c3, k.c3))
  }

  lemma AddKeyTwice(b: Block, k: Block)
    ensures AddKey(AddKey(b, k), k) == b
  {
    AddColTwice(b.c0, k.c0);
    AddColTwice(b.c1, k.c1);
    AddColTwice(b.c2, k.c2);
    AddColTwice(b.c3, k.c3);
  }

  lemma AddColTwice(c: Col, k: Col)
    ensures XorCol(XorCol(c, k), k) == c
  {
    Cancel(c.b0, k.b0);
    Cancel(c.b1, k.b1);
    Cancel(c.b2, k.b2);
    Cancel(c.b3, k.b3);
  }

  function ShiftSub(s: bv8 -> bv8, b: Block): Block {
    ShiftRows(SubBytes(s, b))
  }

  function InvShiftSub(inv: bv8 -> bv8, b: Block): Block {
    SubBytes(inv, InvShiftRows(b))
  }

  lemma SubColUndone(sb: Sbox, c: Col)
    requires Inverse(sb)
    ensures SubCol(sb.inv, SubCol(sb.s, c)) == c
  {
    assert Undone(sb, c.b0) && Undone(sb, c.b1) && Undone(sb, c.b2) && Undone(sb, c.b3);
  }

  lemma ShiftSubUndone(sb: Sbox, b: Block)
    requires Inverse(sb)
    ensures InvShiftSub(sb.inv, ShiftSub(sb.s, b)) == b
  {
    assert InvShiftRows(ShiftRows(SubBytes(sb.s, b))) == SubBytes(sb.s, b);
    SubColUndone(sb, b.c0);
    SubColUndone(sb, b.c1);
    SubColUndone(sb, b.c2);
    SubColUndone(sb, b.c3);
  }

  lemma MixUndone(f: Field, b: Block, k: Block)
    requires Additive(f)
    ensures InvMixColumns(f, AddKey(MixColumns(f, b), k)) == AddKey(b, InvMixColumns(f, k))
  {
    MixColUndone(f, b.c0, k.c0);
    MixColUndone(f, b.c1, k.c1);
    MixColUndone(f, b.c2, k.c2);
    MixColUndone(f, b.c3, k.c3);
  }

  lemma MixColUndone(f: Field, c: Col, k: Col)
    requires Additive(f)
    ensures InvMixCol(f, XorCol(MixCol(f, c), k)) == XorCol(c, InvMixCol(f, k))
  {
    InvMixAdds(f, MixCol(f, c), k);
    InvMixOfMix(f, c);
  }

  // ---------------------------------------------------------------- the cipher and its inverse

  /** What the rounds are made of: adding a key, substituting (and shifting), mixing. */
  datatype Rounds<!T> = Rounds(add: (T, T) -> T, sub: T -> T, unsub: T -> T, mix: T -> T, unmix: T -> T)

  predicate LawfulAt<T(==)>(o: Rounds<T>, x: T, k: T) {
    && o.add(o.add(x, k), k) == x
    && o.unsub(o.sub(x)) == x
    && o.unmix(o.add(o.mix(x), k)) == o.add(x, o.unmix(k))
  }

  ghost predicate Lawful<T(!new)>(o: Rounds<T>) {
    forall x, k :: LawfulAt(o, x, k)
  }

  /** The state after `n` rounds of Cipher: section 5.1 of FIPS-197. */
  function Forward<T>(o: Rounds<T>, k: nat -> T, b: T, n: nat): T {
    if n == 0 then o.add(b, k(0)) else o.add(o.mix(o.sub(Forward(o, k, b, n - 1))), k(n))
  }

  function Cipher<T>(o: Rounds<T>, k: nat -> T, nr: nat, b: T): T
    requires nr >= 1
  {
    o.add(o.sub(Forward(o, k, b, nr - 1)), k(nr))
  }

  /** The state after `n` rounds of EqInvCipher: section 5.3.5 of FIPS-197. */
  function Backward<T>(o: Rounds<T>, dk: nat -> T, b: T, n: nat): T {
    if n == 0 then o.add(b, dk(0)) else o.add(o.unmix(o.unsub(Backward(o, dk, b, n - 1))), dk(n))
  }

  function EqInvCipher<T>(o: Rounds<T>, dk: nat -> T, nr: nat, b: T): T
    requires nr >= 1
  {
    o.add(o.unsub(Backward(o, dk, b, nr - 1)), dk(nr))
  }

  predicate DecKey<T(==)>(o: Rounds<T>, k: nat -> T, dk: nat -> T, nr: nat, r: nat)
    requires r <= nr
  {
    dk(r) == if r == 0 || r == nr then k(nr - r) else o.unmix(k(nr - r))
  }

  /** The decryption keys: reversed, and inverse-mixed but for the first and the last. */
  predicate DecKeys<T(==)>(o: Rounds<T>, k: nat -> T, dk: nat -> T, nr: nat) {
    forall r :: 0 <= r <= nr ==> DecKey(o, k, dk, nr, r)
  }

  /** Decryption meets encryption in the middle, after every round. */
  lemma {:induction false} MeetInside<T(!new)>(o: Rounds<T>, k: nat -> T, dk: nat -> T, nr: nat, b: T, n: nat)
    requires Lawful(o) && DecKeys(o, k, dk, nr) && n < nr
    ensures Backward(o, dk, Cipher(o, k, nr, b), n) == o.sub(Forward(o, k, b, nr - 1 - n))
  {
    assert DecKey(o, k, dk, nr, 0);
    assert LawfulAt(o, o.sub(Forward(o, k, b, nr - 1)), k(nr));
    MeetFrom(o, k, dk, nr, b, Cipher(o, k, nr, b), n, nr - 1 - n);
  }

  lemma {:induction false} MeetFrom<T(!new)>(
    o: Rounds<T>, k: nat -> T, dk: nat -> T, nr: nat, b: T, c: T, n: nat, m: nat)
    requires Lawful(o) && DecKeys(o, k, dk, nr) && n + m + 1 == nr
    requires Backward(o, dk, c, 0) == o.sub(Forward(o, k, b, nr - 1))
    ensures Backward(o, dk, c, n) == o.sub(Forward(o, k, b, m))
    decreases n
  {
    if n > 0 {
      MeetFrom(o, k, dk, nr, b, c, n - 1, m + 1);
      MeetOnce(o, k, dk, nr, b, c, n, m);
    }
  }

  lemma {:induction false} MeetOnce<T(!new)>(
    o: Rounds<T>, k: nat -> T, dk: nat -> T, nr: nat, b: T, c: T, n: nat, m: nat)
    requires Lawful(o) && DecKeys(o, k, dk, nr) && n > 0 && n + m + 1 == nr
    requires Backward(o, dk, c, n - 1) == o.sub(Forward(o, k, b, m + 1))
    ensures Backward(o, dk, c, n) == o.sub(Forward(o, k, b, m))
  {
    assert DecKey(o, k, dk, nr, n);
    MeetStep(o, o.sub(Forward(o, k, b, m)), k(m + 1));
  }

  /** One round back undoes one round forth. */
  lemma MeetStep<T(!new)>(o: Rounds<T>, before: T, key: T)
    requires Lawful(o)
    ensures o.add(o.unmix(o.unsub(o.sub(o.add(o.mix(before), key)))), o.unmix(key)) == before
  {
    assert LawfulAt(o, o.add(o.mix(before), key), key);
    assert LawfulAt(o, before, key);
    assert LawfulAt(o, before, o.unmix(key));
  }

  /** Decryption undoes encryption, for every block, every number of rounds and every key schedule. */
  lemma DecryptUndoesEncrypt<T(!new)>(o: Rounds<T>, k: nat -> T, dk: nat -> T, nr: nat, b: T)
    requires Lawful(o) && nr >= 1 && DecKeys(o, k, dk, nr)
    ensures EqInvCipher(o, dk, nr, Cipher(o, k, nr, b)) == b
  {
    MeetInside(o, k, dk, nr, b, nr - 1);
    assert LawfulAt(o, Forward(o, k, b, 0), k(0));
    assert DecKey(o, k, dk, nr, nr);
    assert LawfulAt(o, b, k(0));
  }

  /** The rounds of AES. */
  function AesRounds(f: Field, sb: Sbox): Rounds<Block> {
    Rounds(AddKey, b => ShiftSub(sb.s, b), b => InvShiftSub(sb.inv, b), b => MixColumns(f, b), b => InvMixColumns(f, b))
  }

  lemma AesLawful(f: Field, sb: Sbox)
    requires Additive(f) && Inverse(sb)
    ensures Lawful(AesRounds(f, sb))
  {
    var o := AesRounds(f, sb);
    forall x, k ensures LawfulAt(o, x, k) {
      AddKeyTwice(x, k);
      ShiftSubUndone(sb, x);
      MixUndone(f, x, k);
    }
  }

  // ---------------------------------------------------------------- tables and rounds of the code

  /** crypto_ft_tab, crypto_fl_tab, crypto_it_tab and crypto_il_tab. */
  datatype Tables = Tables(ft: (nat, bv8) -> bv32, fl: (nat, bv8) -> bv32, it: (nat, bv8) -> bv32, il: (nat, bv8) -> bv32)

  predicate ForwardEntry(t: Tables, f: Field, sb: Sbox, x: bv8) {
    var a := sb.s(x);
    && t.ft(0, x) == Word(Col(f.x(a), a, a, Mul3(f, a)))
    && t.ft(1, x) == Word(Col(Mul3(f, a), f.x(a), a, a))
    && t.ft(2, x) == Word(Col(a, Mul3(f, a), f.x(a), a))
    && t.ft(3, x) == Word(Col(a, a, Mul3(f, a), f.x(a)))
  }

  predicate InverseEntry(t: Tables, f: Field, sb: Sbox, x: bv8) {
    var a := sb.inv(x);
    && t.it(0, x) == Word(Col(MulE(f, a), Mul9(f, a), MulD(f, a), MulB(f, a)))
    && t.it(1, x) == Word(Col(MulB(f, a), MulE(f, a), Mul9(f, a), MulD(f, a)))
    && t.it(2, x) == Word(Col(MulD(f, a), MulB(f, a), MulE(f, a), Mul9(f, a)))
    && t.it(3, x) == Word(Col(Mul9(f, a), MulD(f, a), MulB(f, a), MulE(f, a)))
  }

  predicate LastEntry(tab: (nat, bv8) -> bv32, s: bv8 -> bv8, x: bv8) {
    && tab(0, x) == Word(Col(s(x), 0, 0, 0))
    && tab(1, x) == Word(Col(0, s(x), 0, 0))
    && tab(2, x) == Word(Col(0, 0, s(x), 0))
    && tab(3, x) == Word(Col(0, 0, 0, s(x)))
  }

  /** The tables meet their definitions. */
  ghost predicate Meets(t: Tables, f: Field, sb: Sbox) {
    && (forall x :: ForwardEntry(t, f, sb, x))
    && (forall x :: InverseEntry(t, f, sb, x))
    && (forall x :: LastEntry(t.fl, sb.s, x))
    && (forall x :: LastEntry(t.il, sb.inv, x))
  }

  /** Four table look-ups and a key word: f_rn, f_rl, i_rn and i_rl. */
  function Lookup(tab: (nat, bv8) -> bv32, a: bv32, b: bv32, c: bv32, d: bv32, k: bv32): bv32 {
    XorW(XorW(XorW(XorW(tab(0, Byte(a, 0)), tab(1, Byte(b, 1))), tab(2, Byte(c, 2))), tab(3, Byte(d, 3))), k)
  }

  lemma WordXor5(a: Col, b: Col, c: Col, d: Col, k: Col)
    ensures XorW(XorW(XorW(XorW(Word(a), Word(b)), Word(c)), Word(d)), Word(k)) ==
      Word(XorCol(XorCol(XorCol(XorCol(a, b), c), d), k))
  {
    WordXor(a, b);
    WordXor(XorCol(a, b), c);
    WordXor(XorCol(XorCol(a, b), c), d);
    WordXor(XorCol(XorCol(XorCol(a, b), c), d), k);
  }

  lemma MixColByTerms(f: Field, a: bv8, b: bv8, c: bv8, d: bv8)
    ensures XorCol(XorCol(XorCol(Col(f.x(a), a, a, Mul3(f, a)), Col(Mul3(f, b), f.x(b), b, b)), Col(c, Mul3(f, c), f.x(c), c)),
                   Col(d, d, Mul3(f, d), f.x(d))) == MixCol(f, Col(a, b, c, d))
  {
    Rotate(f.x(b), Mul3(f, c), d, a);
    Rotate(f.x(c), Mul3(f, d), a, b);
    Rotate(b, f.x(c), Mul3(f, d), a);
    Rotate(Mul3(f, a), b, c, f.x(d));
  }

  lemma InvMixColByTerms(f: Field, a: bv8, b: bv8, c: bv8, d: bv8)
    ensures XorCol(XorCol(XorCol(Col(MulE(f, a), Mul9(f, a), MulD(f, a), MulB(f, a)), Col(MulB(f, b), MulE(f, b), Mul9(f, b), MulD(f, b))),
                          Col(MulD(f, c), MulB(f, c), MulE(f, c), Mul9(f, c))), Col(Mul9(f, d), MulD(f, d), MulB(f, d), MulE(f, d))) ==
      InvMixCol(f, Col(a, b, c, d))
  {
    Rotate(MulE(f, b), MulB(f, c), MulD(f, d), Mul9(f, a));
    Rotate(MulE(f, c), MulB(f, d), MulD(f, a), Mul9(f, b));
    Rotate(Mul9(f, b), MulE(f, c), MulB(f, d), MulD(f, a));
    Rotate(MulB(f, a), MulD(f, b), Mul9(f, c), MulE(f, d));
  }

  /** A word of a forward round. */
  lemma ForwardWord(t: Tables, f: Field, sb: Sbox, a: Col, b: Col, c: Col, d: Col, k: Col)
    requires Meets(t, f, sb)
    ensures Lookup(t.ft, Word(a), Word(b), Word(c), Word(d), Word(k)) ==
      Word(XorCol(MixCol(f, SubCol(sb.s, Diagonal(a, b, c, d))), k))
  {
    BytesOfWord(a);
    BytesOfWord(b);
    BytesOfWord(c);
    BytesOfWord(d);
    assert ForwardEntry(t, f, sb, a.b0) && ForwardEntry(t, f, sb, b.b1) && ForwardEntry(t, f, sb, c.b2) && ForwardEntry(t, f, sb, d.b3);
    var (p, q, r, u) := (sb.s(a.b0), sb.s(b.b1), sb.s(c.b2), sb.s(d.b3));
    MixColByTerms(f, p, q, r, u);
    WordXor5(Col(f.x(p), p, p, Mul3(f, p)), Col(Mul3(f, q), f.x(q), q, q), Col(r, Mul3(f, r), f.x(r), r), Col(u, u, Mul3(f, u), f.x(u)), k);
  }

  lemma InverseWord(t: Tables, f: Field, sb: Sbox, a: Col, b: Col, c: Col, d: Col, k: Col)
    requires Meets(t, f, sb)
    ensures Lookup(t.it, Word(a), Word(b), Word(c), Word(d), Word(k)) ==
      Word(XorCol(InvMixCol(f, SubCol(sb.inv, Diagonal(a, b, c, d))), k))
  {
    BytesOfWord(a);
    BytesOfWord(b);
    BytesOfWord(c);
    BytesOfWord(d);
    assert InverseEntry(t, f, sb, a.b0) && InverseEntry(t, f, sb, b.b1) && InverseEntry(t, f, sb, c.b2) && InverseEntry(t, f, sb, d.b3);
    var (p, q, r, u) := (sb.inv(a.b0), sb.inv(b.b1), sb.inv(c.b2), sb.inv(d.b3));
    InvMixColByTerms(f, p, q, r, u);
    WordXor5(Col(MulE(f, p), Mul9(f, p), MulD(f, p), MulB(f, p)), Col(MulB(f, q), MulE(f, q), Mul9(f, q), MulD(f, q)),
             Col(MulD(f, r), MulB(f, r), MulE(f, r), Mul9(f, r)), Col(Mul9(f, u), MulD(f, u), MulB(f, u), MulE(f, u)), k);
  }

  lemma SplitByTerms(a: bv8, b: bv8, c: bv8, d: bv8)
    ensures XorCol(XorCol(XorCol(Col(a, 0, 0, 0), Col(0, b, 0, 0)), Col(0, 0, c, 0)), Col(0, 0, 0, d)) == Col(a, b, c, d)
  {
    Zero(a);
    Zero(b);
    Zero(c);
    Zero(d);
    Zero(0);
  }

  lemma Zero(a: bv8)
    ensures Xor(a, 0) == a && Xor(0, a) == a
  {
  }

  lemma LastWord(tab: (nat, bv8) -> bv32, s: bv8 -> bv8, a: Col, b: Col, c: Col, d: Col, k: Col)
    requires forall x :: LastEntry(tab, s, x)
    ensures Lookup(tab, Word(a), Word(b), Word(c), Word(d), Word(k)) == Word(XorCol(SubCol(s, Diagonal(a, b, c, d)), k))
  {
    BytesOfWord(a);
    BytesOfWord(b);
    BytesOfWord(c);
    BytesOfWord(d);
    assert LastEntry(tab, s, a.b0) && LastEntry(tab, s, b.b1) && LastEntry(tab, s, c.b2) && LastEntry(tab, s, d.b3);
    SplitByTerms(s(a.b0), s(b.b1), s(c.b2), s(d.b3));
    WordXor5(Col(s(a.b0), 0, 0, 0), Col(0, s(b.b1), 0, 0), Col(0, 0, s(c.b2), 0), Col(0, 0, 0, s(d.b3)), k);
  }

  datatype Quad = Quad(w0: bv32, w1: bv32, w2: bv32, w3: bv32)

  function Pack(b: Block): Quad {
    Quad(Word(b.c0), Word(b.c1), Word(b.c2), Word(b.c3))
  }

  function Unpack(q: Quad): Block {
    Block(Bytes(q.w0), Bytes(q.w1), Bytes(q.w2), Bytes(q.w3))
  }

  lemma PackUnpack(q: Quad)
    ensures Pack(Unpack(q)) == q
  {
    WordOfBytes(q.w0);
    WordOfBytes(q.w1);
    WordOfBytes(q.w2);
    WordOfBytes(q.w3);
  }

  /** f_nround and f_lround, by table. */
  function FRound(tab: (nat, bv8) -> bv32, b: Quad, k: Quad): Quad {
    Quad(Lookup(tab, b.w0, b.w1, b.w2, b.w3, k.w0), Lookup(tab, b.w1, b.w2, b.w3, b.w0, k.w1),
         Lookup(tab, b.w2, b.w3, b.w0, b.w1, k.w2), Lookup(tab, b.w3, b.w0, b.w1, b.w2, k.w3))
  }

  /** i_nround and i_lround, by table. */
  function IRound(tab: (nat, bv8) -> bv32, b: Quad, k: Quad): Quad {
    Quad(Lookup(tab, b.w0, b.w3, b.w2, b.w1, k.w0), Lookup(tab, b.w1, b.w0, b.w3, b.w2, k.w1),
         Lookup(tab, b.w2, b.w1, b.w0, b.w3, k.w2), Lookup(tab, b.w3, b.w2, b.w1, b.w0, k.w3))
  }

  function AddQuad(b: Quad, k: Quad): Quad {
    Quad(XorW(b.w0, k.w0), XorW(b.w1, k.w1), XorW(b.w2, k.w2), XorW(b.w3, k.w3))
  }

  lemma AddQuadIs(b: Block, k: Block)
    ensures AddQuad(Pack(b), Pack(k)) == Pack(AddKey(b, k))
  {
    WordXor(b.c0, k.c0);
    WordXor(b.c1, k.c1);
    WordXor(b.c2, k.c2);
    WordXor(b.c3, k.c3);
  }

  /** A forward round of the code is SubBytes, ShiftRows, MixColumns and AddRoundKey. */
  lemma FRoundIs(t: Tables, f: Field, sb: Sbox, b: Block, k: Block)
    requires Meets(t, f, sb)
    ensures FRound(t.ft, Pack(b), Pack(k)) == Pack(AddKey(MixColumns(f, ShiftSub(sb.s, b)), k))
  {
    ForwardWord(t, f, sb, b.c0, b.c1, b.c2, b.c3, k.c0);
    ForwardWord(t, f, sb, b.c1, b.c2, b.c3, b.c0, k.c1);
    ForwardWord(t, f, sb, b.c2, b.c3, b.c0, b.c1, k.c2);
    ForwardWord(t, f, sb, b.c3, b.c0, b.c1, b.c2, k.c3);
  }

  lemma FLastIs(t: Tables, f: Field, sb: Sbox, b: Block, k: Block)
    requires Meets(t, f, sb)
    ensures FRound(t.fl, Pack(b), Pack(k)) == Pack(AddKey(ShiftSub(sb.s, b), k))
  {
    LastWord(t.fl, sb.s, b.c0, b.c1, b.c2, b.c3, k.c0);
    LastWord(t.fl, sb.s, b.c1, b.c2, b.c3, b.c0, k.c1);
    LastWord(t.fl, sb.s, b.c2, b.c3, b.c0, b.c1, k.c2);
    LastWord(t.fl, sb.s, b.c3, b.c0, b.c1, b.c2, k.c3);
  }

  lemma IRoundIs(t: Tables, f: Field, sb: Sbox, b: Block, k: Block)
    requires Meets(t, f, sb)
    ensures IRound(t.it, Pack(b), Pack(k)) == Pack(AddKey(InvMixColumns(f, InvShiftSub(sb.inv, b)), k))
  {
    InverseWord(t, f, sb, b.c0, b.c3, b.c2, b.c1, k.c0);
    InverseWord(t, f, sb, b.c1, b.c0, b.c3, b.c2, k.c1);
    InverseWord(t, f, sb, b.c2, b.c1, b.c0, b.c3, k.c2);
    InverseWord(t, f, sb, b.c3, b.c2, b.c1, b.c0, k.c3);
  }

  lemma ILastIs(t: Tables, f: Field, sb: Sbox, b: Block, k: Block)
    requires Meets(t, f, sb)
    ensures IRound(t.il, Pack(b), Pack(k)) == Pack(AddKey(InvShiftSub(sb.inv, b), k))
  {
    LastWord(t.il, sb.inv, b.c0, b.c3, b.c2, b.c1, k.c0);
    LastWord(t.il, sb.inv, b.c1, b.c0, b.c3, b.c2, k.c1);
    LastWord(t.il, sb.inv, b.c2, b.c1, b.c0, b.c3, k.c2);
    LastWord(t.il, sb.inv, b.c3, b.c2, b.c1, b.c0, k.c3);
  }

  // ---------------------------------------------------------------- key expansion

  function SubWord(s: bv8 -> bv8, w: bv32): bv32 {
    Word(SubCol(s, Bytes(w)))
  }

  function RotWord(w: bv32): bv32 {
    Word(Col(Byte(w, 1), Byte(w, 2), Byte(w, 3), Byte(w, 0)))
  }

  /** x to the power n. */
  function XPower(n: nat): bv8 {
    if n == 0 then 1 else XTime(XPower(n - 1))
  }

  function Rcon(j: nat): bv32
    requires j >= 1
  {
    Word(Col(XPower(j - 1), 0, 0, 0))
  }

  /** Word `i` of the key schedule: section 5.2 of FIPS-197. */
  function KeyWord(s: bv8 -> bv8, key: seq<bv32>, nk: nat, i: nat): bv32
    requires 0 < nk <= |key|
  {
    if i < nk then key[i]
    else
      var temp := KeyWord(s, key, nk, i - 1);
      var mixed := if i % nk == 0 then XorW(SubWord(s, RotWord(temp)), Rcon(i / nk))
                   else if nk > 6 && i % nk == 4 then SubWord(s, temp)
                   else temp;
      XorW(KeyWord(s, key, nk, i - nk), mixed)
  }

  const RCO_TAB: seq<bv32> := [1, 2, 4, 8, 16, 32, 64, 128, 27, 54]

  lemma RcoIsRcon(i: nat)
    requires i < 10
    ensures RCO_TAB[i] == Rcon(i + 1)
  {
    assert XPower(0) == 1 && XPower(1) == 2 && XPower(2) == 4 && XPower(3) == 8 && XPower(4) == 16;
    assert XPower(5) == 32 && XPower(6) == 64 && XPower(7) == 128 && XPower(8) == 27 && XPower(9) == 54;
  }

  lemma CommW(x: bv32, y: bv32)
    ensures XorW(x, y) == XorW(y, x)
  {
  }

  /** ls_box. */
  function LsBox(tab: (nat, bv8) -> bv32, x: bv32): bv32 {
    XorW(XorW(XorW(tab(0, Byte(x, 0)), tab(1, Byte(x, 1))), tab(2, Byte(x, 2))), tab(3, Byte(x, 3)))
  }

  lemma LsBoxIs(tab: (nat, bv8) -> bv32, s: bv8 -> bv8, x: bv32)
    requires forall a :: LastEntry(tab, s, a)
    ensures LsBox(tab, x) == SubWord(s, x)
  {
    var c := Bytes(x);
    assert LastEntry(tab, s, c.b0) && LastEntry(tab, s, c.b1) && LastEntry(tab, s, c.b2) && LastEntry(tab, s, c.b3);
    var (p, q, r, u) := (Col(s(c.b0), 0, 0, 0), Col(0, s(c.b1), 0, 0), Col(0, 0, s(c.b2), 0), Col(0, 0, 0, s(c.b3)));
    WordXor(p, q);
    WordXor(XorCol(p, q), r);
    WordXor(XorCol(XorCol(p, q), r), u);
    SplitByTerms(s(c.b0), s(c.b1), s(c.b2), s(c.b3));
  }

  lemma RorIsRotWord(x: bv32)
    ensures Ror8(x) == RotWord(x)
  {
    WordOfBytes(x);
    Ror8Word(Bytes(x));
  }

  // ---------------------------------------------------------------- key schedules of words

  function QuadAt(w: seq<bv32>, i: nat): Quad
    requires i + 4 <= |w|
  {
    Quad(w[i], w[i + 1], w[i + 2], w[i + 3])
  }

  /** The round keys an array of words holds. */
  function Sched(w: seq<bv32>): nat -> Block {
    (r: nat) => if 4 * r + 4 <= |w| then Unpack(QuadAt(w, 4 * r)) else Unpack(Quad(0, 0, 0, 0))
  }

  lemma SchedAt(w: seq<bv32>, r: nat)
    requires 4 * r + 4 <= |w|
    ensures Pack(Sched(w)(r)) == QuadAt(w, 4 * r) && Sched(w)(r) == Unpack(QuadAt(w, 4 * r))
  {
    PackUnpack(QuadAt(w, 4 * r));
  }

  /** Where word `i` of the encryption key goes in the decryption key, for a last round key at `n`. */
  function DecIndex(n: int, i: int): int {
    n - (i - i % 4) + i % 4
  }

  lemma DecIndexTwice(n: int, i: int)
    requires n % 4 == 0 && 0 <= i < n + 4
    ensures 0 <= DecIndex(n, i) < n + 4 && DecIndex(n, DecIndex(n, i)) == i
    ensures 4 <= DecIndex(n, i) < n <==> 4 <= i < n
  {
  }

  /** The decryption key derived from an encryption key: reversed by rounds, the inner ones passed
      through `mix`. */
  predicate DecWords(mix: bv32 -> bv32, enc: seq<bv32>, dec: seq<bv32>, n: nat) {
    && n % 4 == 0 && n + 4 <= |enc| && n + 4 <= |dec|
    && (forall c :: 0 <= c < 4 ==> dec[c] == enc[n + c])
    && (forall c :: 0 <= c < 4 ==> dec[n + c] == enc[c])
    && (forall j :: 4 <= j < n ==> 0 <= DecIndex(n, j) < |enc| && dec[j] == mix(enc[DecIndex(n, j)]))
  }

  lemma ImixBytes(w: bv32)
    ensures Bytes(ImixCol(w)) == InvMixCol(Gf, Bytes(w))
  {
    GfLaws();
    WordOfBytes(w);
    ImixIsInvMix(Gf, Bytes(w));
    BytesOfWord(InvMixCol(Gf, Bytes(w)));
  }

  lemma DecIndexOf(nr: nat, r: nat, c: nat)
    requires r <= nr && c < 4
    ensures DecIndex(4 * nr, 4 * r + c) == 4 * (nr - r) + c
  {
  }

  lemma InnerDecWord(mix: bv32 -> bv32, enc: seq<bv32>, dec: seq<bv32>, nr: nat, r: nat, c: nat)
    requires DecWords(mix, enc, dec, 4 * nr) && 0 < r < nr && c < 4
    ensures dec[4 * r + c] == mix(enc[4 * (nr - r) + c])
  {
    DecIndexOf(nr, r, c);
  }

  /** `mix` is InvMixColumns on the column a word holds. */
  ghost predicate Mixes(mix: bv32 -> bv32) {
    forall w :: MixesAt(mix, w)
  }

  predicate MixesAt(mix: bv32 -> bv32, w: bv32) {
    Bytes(mix(w)) == InvMixCol(Gf, Bytes(w))
  }

  lemma ImixMixes()
    ensures Mixes(ImixCol)
  {
    forall w ensures MixesAt(ImixCol, w) {
      ImixBytes(w);
    }
  }

  lemma UnpackMix(mix: bv32 -> bv32, p: Quad, q: Quad)
    requires Mixes(mix) && p.w0 == mix(q.w0) && p.w1 == mix(q.w1) && p.w2 == mix(q.w2) && p.w3 == mix(q.w3)
    ensures Unpack(p) == InvMixColumns(Gf, Unpack(q))
  {
    assert MixesAt(mix, q.w0) && MixesAt(mix, q.w1) && MixesAt(mix, q.w2) && MixesAt(mix, q.w3);
  }

  lemma InnerDecKey(mix: bv32 -> bv32, enc: seq<bv32>, dec: seq<bv32>, nr: nat, r: nat)
    requires Mixes(mix) && DecWords(mix, enc, dec, 4 * nr) && 0 < r < nr
    ensures Unpack(QuadAt(dec, 4 * r)) == InvMixColumns(Gf, Unpack(QuadAt(enc, 4 * (nr - r))))
  {
    InnerDecWord(mix, enc, dec, nr, r, 0);
    InnerDecWord(mix, enc, dec, nr, r, 1);
    InnerDecWord(mix, enc, dec, nr, r, 2);
    InnerDecWord(mix, enc, dec, nr, r, 3);
    UnpackMix(mix, QuadAt(dec, 4 * r), QuadAt(enc, 4 * (nr - r)));
  }

  lemma OuterDecKey(mix: bv32 -> bv32, enc: seq<bv32>, dec: seq<bv32>, nr: nat)
    requires DecWords(mix, enc, dec, 4 * nr)
    ensures QuadAt(dec, 0) == QuadAt(enc, 4 * nr) && QuadAt(dec, 4 * nr) == QuadAt(enc, 0)
  {
    var n := 4 * nr;
    assert dec[0] == enc[n + 0] && dec[1] == enc[n + 1] && dec[2] == enc[n + 2] && dec[3] == enc[n + 3];
    assert dec[n + 0] == enc[0] && dec[n + 1] == enc[1] && dec[n + 2] == enc[2] && dec[n + 3] == enc[3];
  }

  lemma DecKeyInside(mix: bv32 -> bv32, enc: seq<bv32>, dec: seq<bv32>, nr: nat, r: nat, o: Rounds<Block>)
    requires Mixes(mix) && DecWords(mix, enc, dec, 4 * nr) && 0 < r < nr
    requires o.unmix(Unpack(QuadAt(enc, 4 * (nr - r)))) == InvMixColumns(Gf, Unpack(QuadAt(enc, 4 * (nr - r))))
    ensures DecKey(o, Sched(enc), Sched(dec), nr, r)
  {
    SchedAt(dec, r);
    SchedAt(enc, nr - r);
    InnerDecKey(mix, enc, dec, nr, r);
  }

  lemma DecKeyAtEnds(mix: bv32 -> bv32, enc: seq<bv32>, dec: seq<bv32>, nr: nat, r: nat, o: Rounds<Block>)
    requires DecWords(mix, enc, dec, 4 * nr) && (r == 0 || r == nr)
    ensures DecKey(o, Sched(enc), Sched(dec), nr, r)
  {
    SchedAt(dec, r);
    SchedAt(enc, nr - r);
    OuterDecKey(mix, enc, dec, nr);
  }

  /** The derived keys are those of section 5.3.5 of FIPS-197. */
  lemma DecWordsAreDecKeys(mix: bv32 -> bv32, enc: seq<bv32>, dec: seq<bv32>, nr: nat, sb: Sbox)
    requires Mixes(mix) && DecWords(mix, enc, dec, 4 * nr)
    ensures DecKeys(AesRounds(Gf, sb), Sched(enc), Sched(dec), nr)
  {
    var o := AesRounds(Gf, sb);
    var (k, dk) := (Sched(enc), Sched(dec));
    forall r | 0 <= r <= nr ensures DecKey(o, k, dk, nr, r) {
      if 0 < r < nr {
        DecKeyInside(mix, enc, dec, nr, r, o);
      } else {
        DecKeyAtEnds(mix, enc, dec, nr, r, o);
      }
    }
  }

  predicate DecDoneAt(mix: bv32 -> bv32, enc: seq<bv32>, dec: seq<bv32>, n: nat, i: nat) {
    0 <= DecIndex(n, i) < |dec| && i < |enc| && dec[DecIndex(n, i)] == mix(enc[i])
  }

  /** DecWords as far as the words before `i`. */
  predicate DecUpTo(mix: bv32 -> bv32, enc: seq<bv32>, dec: seq<bv32>, n: nat, i: nat) {
    && n % 4 == 0 && n + 4 <= |enc| && n + 4 <= |dec|
    && (forall c :: 0 <= c < 4 ==> dec[c] == enc[n + c])
    && (forall c :: 0 <= c < 4 ==> dec[n + c] == enc[c])
    && (forall l :: 4 <= l < i ==> DecDoneAt(mix, enc, dec, n, l))
  }

  /** Words `from` to `from` + 3 of `enc` copied over those from `to` on. */
  function FourPut(dec: seq<bv32>, to: nat, enc: seq<bv32>, from: nat): (r: seq<bv32>)
    requires to + 4 <= |dec| && from + 4 <= |enc|
    ensures |r| == |dec|
  {
    dec[to := enc[from]][to + 1 := enc[from + 1]][to + 2 := enc[from + 2]][to + 3 := enc[from + 3]]
  }

  lemma FourPutAt(dec: seq<bv32>, to: nat, enc: seq<bv32>, from: nat, c: nat)
    requires to + 4 <= |dec| && from + 4 <= |enc|
    ensures c < 4 ==> FourPut(dec, to, enc, from)[to + c] == enc[from + c]
    ensures c < |dec| && (c < to || to + 4 <= c) ==> FourPut(dec, to, enc, from)[c] == dec[c]
  {
  }

  lemma EndsCopied(mix: bv32 -> bv32, enc: seq<bv32>, dec: seq<bv32>, n: nat)
    requires n % 4 == 0 && 4 <= n && n + 4 <= |enc| && n + 4 <= |dec|
    ensures DecUpTo(mix, enc, FourPut(FourPut(dec, n, enc, 0), 0, enc, n), n, 4)
  {
    var half := FourPut(dec, n, enc, 0);
    var all := FourPut(half, 0, enc, n);
    forall c | 0 <= c < 4 ensures all[c] == enc[n + c] && all[n + c] == enc[c] {
      FourPutAt(half, 0, enc, n, c);
      FourPutAt(half, 0, enc, n, n + c);
      FourPutAt(dec, n, enc, 0, c);
    }
  }

  lemma DecStep(mix: bv32 -> bv32, enc: seq<bv32>, dec: seq<bv32>, n: nat, i: nat)
    requires DecUpTo(mix, enc, dec, n, i) && 4 <= i < n
    ensures 0 <= DecIndex(n, i) < n && DecUpTo(mix, enc, dec[DecIndex(n, i) := mix(enc[i])], n, i + 1)
  {
    DecIndexTwice(n, i);
    var dec' := dec[DecIndex(n, i) := mix(enc[i])];
    forall l | 4 <= l < i + 1 ensures DecDoneAt(mix, enc, dec', n, l) {
      if l < i {
        assert DecDoneAt(mix, enc, dec, n, l);
        DecIndexTwice(n, l);
      }
    }
  }

  lemma DecDone(mix: bv32 -> bv32, enc: seq<bv32>, dec: seq<bv32>, n: nat)
    requires DecUpTo(mix, enc, dec, n, n)
    ensures DecWords(mix, enc, dec, n)
  {
    forall j | 4 <= j < n ensures 0 <= DecIndex(n, j) < |enc| && dec[j] == mix(enc[DecIndex(n, j)]) {
      DecIndexTwice(n, j);
      assert DecDoneAt(mix, enc, dec, n, DecIndex(n, j));
    }
  }

  // ---------------------------------------------------------------- crypto_aes_expand_key

  /** The word a rotation round starts with: for `nk` 4, 6 or 8 and word nk * i + nk. */
  function Rotated(tab: (nat, bv8) -> bv32, w: bv32, i: nat): bv32
    requires i < 10
  {
    XorW(LsBox(tab, Ror8(w)), RCO_TAB[i])
  }

  lemma RotatedIs(tab: (nat, bv8) -> bv32, s: bv8 -> bv8, w: bv32, i: nat)
    requires i < 10 && forall a :: LastEntry(tab, s, a)
    ensures Rotated(tab, w, i) == XorW(SubWord(s, RotWord(w)), Rcon(i + 1))
  {
    RorIsRotWord(w);
    LsBoxIs(tab, s, RotWord(w));
    RcoIsRcon(i);
  }

  /** The words of a key schedule. */
  type Keys = nat -> bv32

  function KeyWords(s: bv8 -> bv8, key: seq<bv32>, nk: nat): Keys
    requires 0 < nk <= |key|
  {
    (i: nat) => KeyWord(s, key, nk, i)
  }

  /** How a word is transformed at the start and in the middle of a stretch of `nk` words. */
  datatype Mixer = Mixer(rot: (bv32, nat) -> bv32, sub: bv32 -> bv32)

  /** By ror32, ls_box and rco_tab. */
  function CodeMixer(tab: (nat, bv8) -> bv32): Mixer {
    Mixer((w: bv32, i: nat) => if i < 10 then Rotated(tab, w, i) else w, (w: bv32) => LsBox(tab, w))
  }

  /** Word `j` is `t` plus the word `nk` before. */
  predicate Follows(kw: Keys, nk: nat, j: nat, t: bv32)
    requires nk <= j
  {
    kw(j) == XorW(t, kw(j - nk))
  }

  predicate Plainly(kw: Keys, nk: nat, j: nat)
    requires 0 < nk <= j
  {
    Follows(kw, nk, j, kw(j - 1))
  }

  /** What the bodies of loop4, loop6, loop8tophalf and loop8 rely on. */
  predicate Round4(m: Mixer, kw: Keys, i: nat)
  {
    Follows(kw, 4, 4 * i + 4, m.rot(kw(4 * i + 3), i)) && Plainly(kw, 4, 4 * i + 5) && Plainly(kw, 4, 4 * i + 6) && Plainly(kw, 4, 4 * i + 7)
  }

  predicate Round6(m: Mixer, kw: Keys, i: nat)
  {
    && Follows(kw, 6, 6 * i + 6, m.rot(kw(6 * i + 5), i)) && Plainly(kw, 6, 6 * i + 7) && Plainly(kw, 6, 6 * i + 8)
    && Plainly(kw, 6, 6 * i + 9) && Plainly(kw, 6, 6 * i + 10) && Plainly(kw, 6, 6 * i + 11)
  }

  predicate RoundTop8(m: Mixer, kw: Keys, i: nat)
  {
    Follows(kw, 8, 8 * i + 8, m.rot(kw(8 * i + 7), i)) && Plainly(kw, 8, 8 * i + 9) && Plainly(kw, 8, 8 * i + 10) && Plainly(kw, 8, 8 * i + 11)
  }

  predicate Round8(m: Mixer, kw: Keys, i: nat)
  {
    && RoundTop8(m, kw, i) && Follows(kw, 8, 8 * i + 12, m.sub(kw(8 * i + 11)))
    && Plainly(kw, 8, 8 * i + 13) && Plainly(kw, 8, 8 * i + 14) && Plainly(kw, 8, 8 * i + 15)
  }

  lemma FollowsRotated(tab: (nat, bv8) -> bv32, s: bv8 -> bv8, key: seq<bv32>, nk: nat, j: nat, i: nat)
    requires 0 < nk <= |key| && nk <= j && i < 10 && j % nk == 0 && j / nk == i + 1
    requires forall a :: LastEntry(tab, s, a)
    ensures Follows(KeyWords(s, key, nk), nk, j, Rotated(tab, KeyWords(s, key, nk)(j - 1), i))
  {
    RotatedIs(tab, s, KeyWord(s, key, nk, j - 1), i);
    CommW(KeyWord(s, key, nk, j - nk), Rotated(tab, KeyWord(s, key, nk, j - 1), i));
  }

  lemma FollowsPlain(s: bv8 -> bv8, key: seq<bv32>, nk: nat, j: nat)
    requires 0 < nk <= |key| && nk <= j && j % nk != 0 && !(nk > 6 && j % nk == 4)
    ensures Plainly(KeyWords(s, key, nk), nk, j)
  {
    CommW(KeyWord(s, key, nk, j - nk), KeyWord(s, key, nk, j - 1));
  }

  lemma FollowsSub(tab: (nat, bv8) -> bv32, s: bv8 -> bv8, key: seq<bv32>, j: nat)
    requires |key| >= 8 && j >= 8 && j % 8 == 4 && forall a :: LastEntry(tab, s, a)
    ensures Follows(KeyWords(s, key, 8), 8, j, LsBox(tab, KeyWords(s, key, 8)(j - 1)))
  {
    LsBoxIs(tab, s, KeyWord(s, key, 8, j - 1));
    CommW(KeyWord(s, key, 8, j - 8), SubWord(s, KeyWord(s, key, 8, j - 1)));
  }

  /** Word nk * q + r as the code computes it. */
  predicate Computed(m: Mixer, kw: Keys, nk: nat, q: nat, r: nat)
    requires q >= 1 && r < nk
  {
    var j := nk * q + r;
    assert j >= nk;
    if r == 0 then q <= 10 ==> Follows(kw, nk, j, m.rot(kw(j - 1), q - 1))
    else if nk > 6 && r == 4 then Follows(kw, nk, j, m.sub(kw(j - 1)))
    else Plainly(kw, nk, j)
  }

  ghost predicate Schedules(m: Mixer, kw: Keys, nk: nat) {
    forall q, r :: q >= 1 && 0 <= r < nk ==> Computed(m, kw, nk, q, r)
  }

  lemma DivMod(nk: nat, q: nat, r: nat)
    requires nk in {4, 6, 8} && r < nk
    ensures (nk * q + r) % nk == r && (nk * q + r) / nk == q
  {
    if nk == 4 {
      assert (4 * q + r) % 4 == r && (4 * q + r) / 4 == q;
    } else if nk == 6 {
      assert (6 * q + r) % 6 == r && (6 * q + r) / 6 == q;
    } else {
      assert (8 * q + r) % 8 == r && (8 * q + r) / 8 == q;
    }
  }

  lemma ComputedRotated(tab: (nat, bv8) -> bv32, s: bv8 -> bv8, key: seq<bv32>, nk: nat, q: nat)
    requires nk in {4, 6, 8} && nk <= |key| && q >= 1 && forall a :: LastEntry(tab, s, a)
    ensures Computed(CodeMixer(tab), KeyWords(s, key, nk), nk, q, 0)
  {
    var j := nk * q;
    assert j >= nk;
    DivMod(nk, q, 0);
    RotatedFollows(tab, s, key, nk, j, q);
    ComputedFirst(CodeMixer(tab), KeyWords(s, key, nk), nk, q, j);
  }

  lemma RotatedFollows(tab: (nat, bv8) -> bv32, s: bv8 -> bv8, key: seq<bv32>, nk: nat, j: nat, q: nat)
    requires 0 < nk <= |key| && nk <= j && q >= 1 && j % nk == 0 && j / nk == q
    requires forall a :: LastEntry(tab, s, a)
    ensures q <= 10 ==> Follows(KeyWords(s, key, nk), nk, j, CodeMixer(tab).rot(KeyWords(s, key, nk)(j - 1), q - 1))
  {
    if q <= 10 {
      FollowsRotated(tab, s, key, nk, j, q - 1);
    }
  }

  lemma ComputedFirst(m: Mixer, kw: Keys, nk: nat, q: nat, j: nat)
    requires 0 < nk <= j && q >= 1 && j == nk * q
    requires q <= 10 ==> Follows(kw, nk, j, m.rot(kw(j - 1), q - 1))
    ensures Computed(m, kw, nk, q, 0)
  {
  }

  lemma ComputedSub(tab: (nat, bv8) -> bv32, s: bv8 -> bv8, key: seq<bv32>, q: nat)
    requires 8 <= |key| && q >= 1 && forall a :: LastEntry(tab, s, a)
    ensures Computed(CodeMixer(tab), KeyWords(s, key, 8), 8, q, 4)
  {
    FollowsSub(tab, s, key, 8 * q + 4);
  }

  lemma ComputedPlain(tab: (nat, bv8) -> bv32, s: bv8 -> bv8, key: seq<bv32>, nk: nat, q: nat, r: nat)
    requires nk in {4, 6, 8} && nk <= |key| && q >= 1 && 0 < r < nk && !(nk > 6 && r == 4)
    ensures Computed(CodeMixer(tab), KeyWords(s, key, nk), nk, q, r)
  {
    var j := nk * q + r;
    assert j >= nk;
    DivMod(nk, q, r);
    FollowsPlain(s, key, nk, j);
  }

  /** What the code computes word by word is the key schedule of FIPS-197. */
  lemma KeyWordsSchedule(tab: (nat, bv8) -> bv32, s: bv8 -> bv8, key: seq<bv32>, nk: nat)
    requires nk in {4, 6, 8} && nk <= |key| && forall a :: LastEntry(tab, s, a)
    ensures Schedules(CodeMixer(tab), KeyWords(s, key, nk), nk)
  {
    var (m, kw) := (CodeMixer(tab), KeyWords(s, key, nk));
    forall q, r | q >= 1 && 0 <= r < nk ensures Computed(m, kw, nk, q, r) {
      if r == 0 {
        ComputedRotated(tab, s, key, nk, q);
      } else if nk > 6 && r == 4 {
        ComputedSub(tab, s, key, q);
      } else {
        ComputedPlain(tab, s, key, nk, q, r);
      }
    }
  }

  lemma Factor(nk: nat, i: nat, r: nat)
    ensures nk * (i + 1) + r == nk * i + nk + r
  {
  }

  lemma PlainlyAt(m: Mixer, kw: Keys, nk: nat, i: nat, r: nat, j: nat)
    requires Schedules(m, kw, nk) && 0 < r < nk && !(nk > 6 && r == 4) && j == nk * i + nk + r
    ensures j >= nk && Plainly(kw, nk, j)
  {
    assert Computed(m, kw, nk, i + 1, r);
    Factor(nk, i, r);
    assert nk * (i + 1) + r >= nk;
  }

  lemma RotatedAt(m: Mixer, kw: Keys, nk: nat, i: nat, j: nat)
    requires Schedules(m, kw, nk) && 0 < nk && i < 10 && j == nk * i + nk
    ensures j >= nk && Follows(kw, nk, j, m.rot(kw(j - 1), i))
  {
    assert Computed(m, kw, nk, i + 1, 0);
    Factor(nk, i, 0);
    assert nk * (i + 1) + 0 >= nk;
  }

  lemma Rounds4(m: Mixer, kw: Keys, i: nat)
    requires Schedules(m, kw, 4) && i < 10
    ensures Round4(m, kw, i)
  {
    RotatedAt(m, kw, 4, i, 4 * i + 4);
    PlainlyAt(m, kw, 4, i, 1, 4 * i + 5);
    PlainlyAt(m, kw, 4, i, 2, 4 * i + 6);
    PlainlyAt(m, kw, 4, i, 3, 4 * i + 7);
  }

  lemma Rounds6(m: Mixer, kw: Keys, i: nat)
    requires Schedules(m, kw, 6) && i < 10
    ensures Round6(m, kw, i)
  {
    RotatedAt(m, kw, 6, i, 6 * i + 6);
    PlainlyAt(m, kw, 6, i, 1, 6 * i + 7);
    PlainlyAt(m, kw, 6, i, 2, 6 * i + 8);
    PlainlyAt(m, kw, 6, i, 3, 6 * i + 9);
    PlainlyAt(m, kw, 6, i, 4, 6 * i + 10);
    PlainlyAt(m, kw, 6, i, 5, 6 * i + 11);
  }

  lemma RoundsTop8(m: Mixer, kw: Keys, i: nat)
    requires Schedules(m, kw, 8) && i < 10
    ensures RoundTop8(m, kw, i)
  {
    RotatedAt(m, kw, 8, i, 8 * i + 8);
    PlainlyAt(m, kw, 8, i, 1, 8 * i + 9);
    PlainlyAt(m, kw, 8, i, 2, 8 * i + 10);
    PlainlyAt(m, kw, 8, i, 3, 8 * i + 11);
  }

  lemma SubstitutedAt(m: Mixer, kw: Keys, i: nat)
    requires Schedules(m, kw, 8)
    ensures Follows(kw, 8, 8 * i + 12, m.sub(kw(8 * i + 11)))
  {
    assert Computed(m, kw, 8, i + 1, 4);
  }

  lemma Rounds8(m: Mixer, kw: Keys, i: nat)
    requires Schedules(m, kw, 8) && i < 10
    ensures Round8(m, kw, i)
  {
    RoundsTop8(m, kw, i);
    SubstitutedAt(m, kw, i);
    PlainlyAt(m, kw, 8, i, 5, 8 * i + 13);
    PlainlyAt(m, kw, 8, i, 6, 8 * i + 14);
    PlainlyAt(m, kw, 8, i, 7, 8 * i + 15);
  }

  class AesCtx {
    const keyEnc: array<bv32>
    const keyDec: array<bv32>
    var keyLength: nat

    ghost predicate Valid()
      reads this
    {
      keyEnc.Length == 60 && keyDec.Length == 60 && keyEnc != keyDec
    }

    /** The first `n` words are those of the key schedule. */
    ghost predicate Expanded(kw: Keys, n: nat)
      reads this, keyEnc
    {
      Valid() && n <= 60 && forall i :: 0 <= i < n ==> keyEnc[i] == kw(i)
    }

    /** The step every loop body is made of: one more word. */
    method Step(nk: nat, j: nat, t: bv32, ghost kw: Keys) returns (t': bv32)
      requires Expanded(kw, j) && 0 < nk <= j < 60 && Follows(kw, nk, j, t)
      modifies keyEnc
      ensures Expanded(kw, j + 1) && t' == kw(j)
    {
      t' := XorW(t, keyEnc[j - nk]);
      keyEnc[j] := t';
    }

    method Loop4(m: Mixer, i: nat, t: bv32, ghost kw: Keys) returns (t': bv32)
      requires i < 10 && Expanded(kw, 4 * i + 4) && t == kw(4 * i + 3) && Round4(m, kw, i)
      modifies keyEnc
      ensures Expanded(kw, 4 * i + 8) && t' == kw(4 * i + 7)
    {
      t' := Step(4, 4 * i + 4, m.rot(t, i), kw);
      t' := Step(4, 4 * i + 5, t', kw);
      t' := Step(4, 4 * i + 6, t', kw);
      t' := Step(4, 4 * i + 7, t', kw);
    }

    method Loop6(m: Mixer, i: nat, t: bv32, ghost kw: Keys) returns (t': bv32)
      requires i < 8 && Expanded(kw, 6 * i + 6) && t == kw(6 * i + 5) && Round6(m, kw, i)
      modifies keyEnc
      ensures Expanded(kw, 6 * i + 12) && t' == kw(6 * i + 11)
    {
      t' := Step(6, 6 * i + 6, m.rot(t, i), kw);
      t' := Step(6, 6 * i + 7, t', kw);
      t' := Step(6, 6 * i + 8, t', kw);
      t' := Step(6, 6 * i + 9, t', kw);
      t' := Step(6, 6 * i + 10, t', kw);
      t' := Step(6, 6 * i + 11, t', kw);
    }

    method Loop8TopHalf(m: Mixer, i: nat, t: bv32, ghost kw: Keys) returns (t': bv32)
      requires i < 7 && Expanded(kw, 8 * i + 8) && t == kw(8 * i + 7) && RoundTop8(m, kw, i)
      modifies keyEnc
      ensures Expanded(kw, 8 * i + 12) && t' == kw(8 * i + 11)
    {
      t' := Step(8, 8 * i + 8, m.rot(t, i), kw);
      t' := Step(8, 8 * i + 9, t', kw);
      t' := Step(8, 8 * i + 10, t', kw);
      t' := Step(8, 8 * i + 11, t', kw);
    }

    method Loop8(m: Mixer, i: nat, t: bv32, ghost kw: Keys) returns (t': bv32)
      requires i < 6 && Expanded(kw, 8 * i + 8) && t == kw(8 * i + 7) && Round8(m, kw, i)
      modifies keyEnc
      ensures Expanded(kw, 8 * i + 16) && t' == kw(8 * i + 15)
    {
      t' := Loop8TopHalf(m, i, t, kw);
      t' := Step(8, 8 * i + 12, m.sub(t'), kw);
      t' := Step(8, 8 * i + 13, t', kw);
      t' := Step(8, 8 * i + 14, t', kw);
      t' := Step(8, 8 * i + 15, t', kw);
    }
  
    /** The user's key, `nk` words of it. */
    method LoadKey(key: seq<bv32>, nk: nat, ghost kw: Keys)
      requires Valid() && nk <= |key| && nk <= 60 && forall i :: 0 <= i < nk ==> kw(i) == key[i]
      modifies keyEnc
      ensures Expanded(kw, nk)
    {
      var i := 0;
      while i < nk
        invariant 0 <= i <= nk && Expanded(kw, i)
      {
        keyEnc[i] := key[i];
        i := i + 1;
      }
    }

    method Expand128(m: Mixer, ghost kw: Keys)
      requires Expanded(kw, 4) && Schedules(m, kw, 4)
      modifies keyEnc
      ensures Expanded(kw, 44)
    {
      var t := keyEnc[3];
      var i := 0;
      while i < 10
        invariant 0 <= i <= 10 && Expanded(kw, 4 * i + 4) && t == kw(4 * i + 3)
      {
        Rounds4(m, kw, i);
        t := Loop4(m, i, t, kw);
        i := i + 1;
      }
    }

    method Expand192(m: Mixer, ghost kw: Keys)
      requires Expanded(kw, 6) && Schedules(m, kw, 6)
      modifies keyEnc
      ensures Expanded(kw, 54)
    {
      var t := keyEnc[5];
      var i := 0;
      while i < 8
        invariant 0 <= i <= 8 && Expanded(kw, 6 * i + 6) && t == kw(6 * i + 5)
      {
        Rounds6(m, kw, i);
        t := Loop6(m, i, t, kw);
        i := i + 1;
      }
    }

    method Expand256(m: Mixer, ghost kw: Keys)
      requires Expanded(kw, 8) && Schedules(m, kw, 8)
      modifies keyEnc
      ensures Expanded(kw, 60)
    {
      var t := keyEnc[7];
      var i := 0;
      while i < 6
        invariant 0 <= i <= 6 && Expanded(kw, 8 * i + 8) && t == kw(8 * i + 7)
      {
        Rounds8(m, kw, i);
        t := Loop8(m, i, t, kw);
        i := i + 1;
      }
      RoundsTop8(m, kw, i);
      t := Loop8TopHalf(m, i, t, kw);
    }
  
    /** The decryption key; `mix` is imix_col and `n` the index of the last round key. */
    method DeriveDec(mix: bv32 -> bv32, n: nat)
      requires Valid() && n % 4 == 0 && 4 <= n <= 56
      modifies keyDec
      ensures DecWords(mix, keyEnc[..], keyDec[..], n)
    {
      CopyEnds(mix, n);
      var i := 4;
      while i < n
        invariant 4 <= i <= n
        invariant DecUpTo(mix, keyEnc[..], keyDec[..], n, i)
      {
        MixOne(mix, n, i);
        i := i + 1;
      }
      DecDone(mix, keyEnc[..], keyDec[..], n);
    }

    method CopyEnds(ghost mix: bv32 -> bv32, n: nat)
      requires Valid() && n % 4 == 0 && 4 <= n <= 56
      modifies keyDec
      ensures DecUpTo(mix, keyEnc[..], keyDec[..], n, 4)
    {
      CopyFour(n, 0);
      CopyFour(0, n);
      EndsCopied(mix, keyEnc[..], old(keyDec[..]), n);
    }

    method CopyFour(to: nat, from: nat)
      requires Valid() && to + 4 <= 60 && from + 4 <= 60
      modifies keyDec
      ensures keyDec[..] == FourPut(old(keyDec[..]), to, keyEnc[..], from)
    {
      keyDec[to] := keyEnc[from];
      keyDec[to + 1] := keyEnc[from + 1];
      keyDec[to + 2] := keyEnc[from + 2];
      keyDec[to + 3] := keyEnc[from + 3];
    }

    method MixOne(mix: bv32 -> bv32, n: nat, i: nat)
      requires Valid() && DecUpTo(mix, keyEnc[..], keyDec[..], n, i) && 4 <= i < n <= 56
      modifies keyDec
      ensures DecUpTo(mix, keyEnc[..], keyDec[..], n, i + 1)
    {
      DecStep(mix, keyEnc[..], keyDec[..], n, i);
      var j := DecIndex(n, i);
      keyDec[j] := mix(keyEnc[i]);
      assert keyDec[..] == old(keyDec[..])[j := mix(keyEnc[i])];
    }

    /** crypto_aes_expand_key, for a key of `keyLen` bytes given as little-endian words. */
    method ExpandKey(t: Tables, key: seq<bv32>, keyLen: nat, ghost sb: Sbox) returns (ok: bool)
      requires Valid() && keyLen == 4 * |key| && forall a :: LastEntry(t.fl, sb.s, a)
      modifies this, keyEnc, keyDec
      ensures Valid() && ok == (keyLen in {16, 24, 32})
      ensures !ok ==> keyLength == old(keyLength) && keyEnc[..] == old(keyEnc[..]) && keyDec[..] == old(keyDec[..])
      ensures ok ==> keyLength == keyLen && Expanded(KeyWords(sb.s, key, |key|), keyLen + 28)
      ensures ok ==> DecWords(ImixCol, keyEnc[..], keyDec[..], keyLen + 24)
    {
      if keyLen != 16 && keyLen != 24 && keyLen != 32 {
        return false;
      }
      keyLength := keyLen;
      ghost var kw := KeyWords(sb.s, key, |key|);
      KeyWordsSchedule(t.fl, sb.s, key, |key|);
      LoadKey(key, |key|, kw);
      if keyLen == 16 {
        Expand128(CodeMixer(t.fl), kw);
      } else if keyLen == 24 {
        Expand192(CodeMixer(t.fl), kw);
      } else {
        Expand256(CodeMixer(t.fl), kw);
      }
      DeriveDec(ImixCol, keyLen + 24);
      ok := true;
    }

    /** aes_encrypt. */
    method Encrypt(t: Tables, src: Quad) returns (dst: Quad)
      requires Valid() && keyLength in {16, 24, 32}
      ensures dst == CodeCipher(EncRounds(t), Quads(keyEnc[..]), keyLength / 4 + 6, src)
    {
      QuadsHold(keyEnc[..]);
      dst := Crypt(EncRounds(t), keyEnc[..], keyLength, src, Quads(keyEnc[..]));
    }

    /** aes_decrypt. */
    method Decrypt(t: Tables, src: Quad) returns (dst: Quad)
      requires Valid() && keyLength in {16, 24, 32}
      ensures dst == CodeCipher(DecRounds(t), Quads(keyDec[..]), keyLength / 4 + 6, src)
    {
      QuadsHold(keyDec[..]);
      dst := Crypt(DecRounds(t), keyDec[..], keyLength, src, Quads(keyDec[..]));
    }
  }

  // ---------------------------------------------------------------- aes_encrypt and aes_decrypt

  /** The first, the middle and the last rounds of the code. */
  datatype CodeRounds = CodeRounds(first: (Quad, Quad) -> Quad, middle: (Quad, Quad) -> Quad, last: (Quad, Quad) -> Quad)

  function EncRounds(t: Tables): CodeRounds {
    CodeRounds(AddQuad, (b: Quad, k: Quad) => FRound(t.ft, b, k), (b: Quad, k: Quad) => FRound(t.fl, b, k))
  }

  function DecRounds(t: Tables): CodeRounds {
    CodeRounds(AddQuad, (b: Quad, k: Quad) => IRound(t.it, b, k), (b: Quad, k: Quad) => IRound(t.il, b, k))
  }

  function Quads(w: seq<bv32>): nat -> Quad {
    (r: nat) => if 4 * r + 4 <= |w| then QuadAt(w, 4 * r) else Quad(0, 0, 0, 0)
  }

  function CodeForward(c: CodeRounds, kw: nat -> Quad, src: Quad, n: nat): Quad {
    if n == 0 then c.first(src, kw(0)) else c.middle(CodeForward(c, kw, src, n - 1), kw(n))
  }

  function CodeCipher(c: CodeRounds, kw: nat -> Quad, nr: nat, src: Quad): Quad
    requires nr >= 1
  {
    c.last(CodeForward(c, kw, src, nr - 1), kw(nr))
  }

  /** `kw` gives the round keys the words hold. */
  predicate Hold(keys: seq<bv32>, kw: nat -> Quad) {
    |keys| == 60 && forall r :: 0 <= r < 15 ==> kw(r) == QuadAt(keys, 4 * r)
  }

  lemma QuadsHold(keys: seq<bv32>)
    requires |keys| == 60
    ensures Hold(keys, Quads(keys))
  {
  }

  method OneRound(c: CodeRounds, keys: seq<bv32>, b: Quad, kp: nat, ghost kw: nat -> Quad, ghost src: Quad, ghost n: nat) returns (b': Quad)
    requires Hold(keys, kw) && kp == 4 * n + 4 && n < 14 && b == CodeForward(c, kw, src, n)
    ensures b' == CodeForward(c, kw, src, n + 1)
  {
    assert kw(n + 1) == QuadAt(keys, 4 * (n + 1));
    b' := c.middle(b, QuadAt(keys, kp));
  }

  method TwoRounds(c: CodeRounds, keys: seq<bv32>, b: Quad, kp: nat, ghost kw: nat -> Quad, ghost src: Quad, ghost n: nat) returns (b': Quad)
    requires Hold(keys, kw) && kp == 4 * n + 4 && n < 13 && b == CodeForward(c, kw, src, n)
    ensures b' == CodeForward(c, kw, src, n + 2)
  {
    b' := OneRound(c, keys, b, kp, kw, src, n);
    b' := OneRound(c, keys, b', kp + 4, kw, src, n + 1);
  }

  /** The nine rounds every key length has, and the last one. */
  method LastRounds(c: CodeRounds, keys: seq<bv32>, b: Quad, kp: nat, ghost kw: nat -> Quad, ghost src: Quad, ghost n: nat) returns (dst: Quad)
    requires Hold(keys, kw) && kp == 4 * n + 4 && n < 5 && b == CodeForward(c, kw, src, n)
    ensures dst == CodeCipher(c, kw, n + 10, src)
  {
    var b0 := TwoRounds(c, keys, b, kp, kw, src, n);
    b0 := TwoRounds(c, keys, b0, kp + 8, kw, src, n + 2);
    b0 := TwoRounds(c, keys, b0, kp + 16, kw, src, n + 4);
    b0 := TwoRounds(c, keys, b0, kp + 24, kw, src, n + 6);
    var b1 := OneRound(c, keys, b0, kp + 32, kw, src, n + 8);
    dst := FinalRound(c, keys, b1, kp + 36, kw, src, n + 9);
  }

  method FinalRound(c: CodeRounds, keys: seq<bv32>, b: Quad, kp: nat, ghost kw: nat -> Quad, ghost src: Quad, ghost n: nat) returns (dst: Quad)
    requires Hold(keys, kw) && kp == 4 * n + 4 && n < 14 && b == CodeForward(c, kw, src, n)
    ensures dst == CodeCipher(c, kw, n + 1, src)
  {
    assert kw(n + 1) == QuadAt(keys, 4 * (n + 1));
    dst := c.last(b, QuadAt(keys, kp));
  }

  /** The rounds of aes_encrypt and aes_decrypt, unrolled as in the code. */
  method Crypt(c: CodeRounds, keys: seq<bv32>, keyLen: nat, src: Quad, ghost kw: nat -> Quad) returns (dst: Quad)
    requires Hold(keys, kw) && keyLen in {16, 24, 32}
    ensures dst == CodeCipher(c, kw, keyLen / 4 + 6, src)
  {
    assert kw(0) == QuadAt(keys, 0);
    var b := c.first(src, QuadAt(keys, 0));
    var kp := 4;
    ghost var n := 0;
    if keyLen > 24 {
      b := TwoRounds(c, keys, b, kp, kw, src, n);
      kp, n := kp + 8, n + 2;
    }
    if keyLen > 16 {
      b := TwoRounds(c, keys, b, kp, kw, src, n);
      kp, n := kp + 8, n + 2;
    }
    dst := LastRounds(c, keys, b, kp, kw, src, n);
  }

  // ---------------------------------------------------------------- the code refines FIPS-197

  /** One round of the code does on packed states what the cipher does. */
  predicate CodesAt<T>(c: CodeRounds, o: Rounds<T>, pack: T -> Quad, b: T, k: T) {
    && c.first(pack(b), pack(k)) == pack(o.add(b, k))
    && c.middle(pack(b), pack(k)) == pack(o.add(o.mix(o.sub(b)), k))
    && c.last(pack(b), pack(k)) == pack(o.add(o.sub(b), k))
  }

  ghost predicate Codes<T(!new)>(c: CodeRounds, o: Rounds<T>, pack: T -> Quad) {
    forall b, k :: CodesAt(c, o, pack, b, k)
  }

  predicate KeyAgrees<T>(pack: T -> Quad, kq: nat -> Quad, k: nat -> T, r: nat) {
    kq(r) == pack(k(r))
  }

  lemma {:induction false} ForwardRefines<T(!new)>(c: CodeRounds, o: Rounds<T>, pack: T -> Quad, kq: nat -> Quad, k: nat -> T, x: T, n: nat)
    requires Codes(c, o, pack) && forall r :: 0 <= r <= n ==> KeyAgrees(pack, kq, k, r)
    ensures CodeForward(c, kq, pack(x), n) == pack(Forward(o, k, x, n))
  {
    assert KeyAgrees(pack, kq, k, n);
    if n == 0 {
      assert CodesAt(c, o, pack, x, k(0));
    } else {
      ForwardRefines(c, o, pack, kq, k, x, n - 1);
      assert CodesAt(c, o, pack, Forward(o, k, x, n - 1), k(n));
    }
  }

  lemma CipherRefines<T(!new)>(c: CodeRounds, o: Rounds<T>, pack: T -> Quad, kq: nat -> Quad, k: nat -> T, nr: nat, x: T)
    requires Codes(c, o, pack) && nr >= 1 && forall r :: 0 <= r <= nr ==> KeyAgrees(pack, kq, k, r)
    ensures CodeCipher(c, kq, nr, pack(x)) == pack(Cipher(o, k, nr, x))
  {
    ForwardRefines(c, o, pack, kq, k, x, nr - 1);
    assert KeyAgrees(pack, kq, k, nr);
    assert CodesAt(c, o, pack, Forward(o, k, x, nr - 1), k(nr));
  }

  /** The rounds of the inverse cipher are those of a cipher. */
  function Reversed<T>(o: Rounds<T>): Rounds<T> {
    Rounds(o.add, o.unsub, o.sub, o.unmix, o.mix)
  }

  lemma {:induction false} BackwardIsForward<T>(o: Rounds<T>, dk: nat -> T, b: T, n: nat)
    ensures Forward(Reversed(o), dk, b, n) == Backward(o, dk, b, n)
  {
    if n > 0 {
      BackwardIsForward(o, dk, b, n - 1);
    }
  }

  lemma EncCodes(t: Tables, f: Field, sb: Sbox)
    requires Meets(t, f, sb)
    ensures Codes(EncRounds(t), AesRounds(f, sb), Pack)
  {
    var (c, o) := (EncRounds(t), AesRounds(f, sb));
    forall b, k ensures CodesAt(c, o, Pack, b, k) {
      AddQuadIs(b, k);
      FRoundIs(t, f, sb, b, k);
      FLastIs(t, f, sb, b, k);
    }
  }

  lemma DecCodes(t: Tables, f: Field, sb: Sbox)
    requires Meets(t, f, sb)
    ensures Codes(DecRounds(t), Reversed(AesRounds(f, sb)), Pack)
  {
    var (c, o) := (DecRounds(t), Reversed(AesRounds(f, sb)));
    forall b, k ensures CodesAt(c, o, Pack, b, k) {
      AddQuadIs(b, k);
      IRoundIs(t, f, sb, b, k);
      ILastIs(t, f, sb, b, k);
    }
  }

  lemma SchedAgrees(w: seq<bv32>, r: nat)
    ensures KeyAgrees(Pack, Quads(w), Sched(w), r)
  {
    PackUnpack(if 4 * r + 4 <= |w| then QuadAt(w, 4 * r) else Quad(0, 0, 0, 0));
  }

  /** aes_encrypt is Cipher of section 5.1 of FIPS-197. */
  lemma EncryptIsCipher(t: Tables, f: Field, sb: Sbox, w: seq<bv32>, nr: nat, x: Block)
    requires Meets(t, f, sb) && nr >= 1
    ensures CodeCipher(EncRounds(t), Quads(w), nr, Pack(x)) == Pack(Cipher(AesRounds(f, sb), Sched(w), nr, x))
  {
    EncCodes(t, f, sb);
    forall r | 0 <= r <= nr ensures KeyAgrees(Pack, Quads(w), Sched(w), r) {
      SchedAgrees(w, r);
    }
    CipherRefines(EncRounds(t), AesRounds(f, sb), Pack, Quads(w), Sched(w), nr, x);
  }

  /** aes_decrypt is EqInvCipher of section 5.3.5 of FIPS-197. */
  lemma DecryptIsEqInvCipher(t: Tables, f: Field, sb: Sbox, dw: seq<bv32>, nr: nat, y: Block)
    requires Meets(t, f, sb) && nr >= 1
    ensures CodeCipher(DecRounds(t), Quads(dw), nr, Pack(y)) == Pack(EqInvCipher(AesRounds(f, sb), Sched(dw), nr, y))
  {
    var o := AesRounds(f, sb);
    DecCodes(t, f, sb);
    forall r | 0 <= r <= nr ensures KeyAgrees(Pack, Quads(dw), Sched(dw), r) {
      SchedAgrees(dw, r);
    }
    CipherRefines(DecRounds(t), Reversed(o), Pack, Quads(dw), Sched(dw), nr, y);
    BackwardIsForward(o, Sched(dw), y, nr - 1);
    ReversedCipher(o, Sched(dw), nr, y);
  }

  lemma ReversedCipher<T>(o: Rounds<T>, dk: nat -> T, nr: nat, b: T)
    requires nr >= 1
    ensures Cipher(Reversed(o), dk, nr, b) == EqInvCipher(o, dk, nr, b)
  {
    BackwardIsForward(o, dk, b, nr - 1);
  }

  /** The code decrypts what it encrypts: for every block and every key that was expanded, with the
      tables built from any S-box. */
  lemma CodeRoundTrip(t: Tables, sb: Sbox, enc: seq<bv32>, dec: seq<bv32>, nr: nat, src: Quad)
    requires Meets(t, Gf, sb) && Inverse(sb) && nr >= 1 && DecWords(ImixCol, enc, dec, 4 * nr)
    ensures CodeCipher(DecRounds(t), Quads(dec), nr, CodeCipher(EncRounds(t), Quads(enc), nr, src)) == src
  {
    var (o, x) := (AesRounds(Gf, sb), Unpack(src));
    GfLaws();
    ImixMixes();
    AesLawful(Gf, sb);
    DecWordsAreDecKeys(ImixCol, enc, dec, nr, sb);
    PackUnpack(src);
    EncryptIsCipher(t, Gf, sb, enc, nr, x);
    DecryptIsEqInvCipher(t, Gf, sb, dec, nr, Cipher(o, Sched(enc), nr, x));
    DecryptUndoesEncrypt(o, Sched(enc), Sched(dec), nr, x);
  }

  /** So with the keys crypto_aes_expand_key derives, for each of the three key lengths. */
  lemma EveryKeyRoundTrips(t: Tables, sb: Sbox, enc: seq<bv32>, dec: seq<bv32>, keyLen: nat, src: Quad)
    requires Meets(t, Gf, sb) && Inverse(sb) && keyLen in {16, 24, 32} && DecWords(ImixCol, enc, dec, keyLen + 24)
    ensures var nr := keyLen / 4 + 6;
      CodeCipher(DecRounds(t), Quads(dec), nr, CodeCipher(EncRounds(t), Quads(enc), nr, src)) == src
  {
    assert 4 * (keyLen / 4 + 6) == keyLen + 24;
    CodeRoundTrip(t, sb, enc, dec, keyLen / 4 + 6, src);
  }

  /** The round keys of the key schedule of section 5.2 of FIPS-197. */
  function KeySchedule(sb: Sbox, key: seq<bv32>): nat -> Block
    requires key != []
  {
    var kw := KeyWords(sb.s, key, |key|);
    (r: nat) => Unpack(Quad(kw(4 * r), kw(4 * r + 1), kw(4 * r + 2), kw(4 * r + 3)))
  }

  /** Cipher looks at no round key past the last. */
  lemma {:induction false} ForwardSame<T>(o: Rounds<T>, k: nat -> T, k': nat -> T, b: T, n: nat)
    requires forall r :: 0 <= r <= n ==> k(r) == k'(r)
    ensures Forward(o, k, b, n) == Forward(o, k', b, n)
  {
    if n > 0 {
      ForwardSame(o, k, k', b, n - 1);
    }
  }

  lemma CipherSame<T>(o: Rounds<T>, k: nat -> T, k': nat -> T, nr: nat, b: T)
    requires nr >= 1 && forall r :: 0 <= r <= nr ==> k(r) == k'(r)
    ensures Cipher(o, k, nr, b) == Cipher(o, k', nr, b)
  {
    ForwardSame(o, k, k', b, nr - 1);
  }

  lemma ScheduleAt(sb: Sbox, key: seq<bv32>, enc: seq<bv32>, nr: nat, r: nat)
    requires key != [] && r <= nr && 4 * nr + 4 <= |enc|
    requires forall i :: 0 <= i < 4 * nr + 4 ==> enc[i] == KeyWords(sb.s, key, |key|)(i)
    ensures Sched(enc)(r) == KeySchedule(sb, key)(r)
  {
    SchedAt(enc, r);
  }

  lemma KeyedSame(o: Rounds<Block>, sb: Sbox, key: seq<bv32>, enc: seq<bv32>, nr: nat, x: Block)
    requires key != [] && nr >= 1 && 4 * nr + 4 <= |enc|
    requires forall i :: 0 <= i < 4 * nr + 4 ==> enc[i] == KeyWords(sb.s, key, |key|)(i)
    ensures Cipher(o, Sched(enc), nr, x) == Cipher(o, KeySchedule(sb, key), nr, x)
  {
    forall r | 0 <= r <= nr ensures Sched(enc)(r) == KeySchedule(sb, key)(r) {
      ScheduleAt(sb, key, enc, nr, r);
    }
    CipherSame(o, Sched(enc), KeySchedule(sb, key), nr, x);
  }

  lemma KeyedCipher(t: Tables, sb: Sbox, key: seq<bv32>, enc: seq<bv32>, nr: nat, x: Block)
    requires Meets(t, Gf, sb) && key != [] && nr >= 1 && 4 * nr + 4 <= |enc|
    requires forall i :: 0 <= i < 4 * nr + 4 ==> enc[i] == KeyWords(sb.s, key, |key|)(i)
    ensures CodeCipher(EncRounds(t), Quads(enc), nr, Pack(x)) == Pack(Cipher(AesRounds(Gf, sb), KeySchedule(sb, key), nr, x))
  {
    EncryptIsCipher(t, Gf, sb, enc, nr, x);
    KeyedSame(AesRounds(Gf, sb), sb, key, enc, nr, x);
  }

  /** With the keys of crypto_aes_expand_key, for each of the three key lengths: aes_encrypt is Cipher of FIPS-197
      under the key schedule of the key, and aes_decrypt gives the block back. */
  lemma KeyedCode(t: Tables, sb: Sbox, key: seq<bv32>, enc: seq<bv32>, dec: seq<bv32>, keyLen: nat, x: Block)
    requires Meets(t, Gf, sb) && Inverse(sb) && keyLen in {16, 24, 32} && keyLen == 4 * |key| && keyLen + 28 <= |enc|
    requires forall i :: 0 <= i < keyLen + 28 ==> enc[i] == KeyWords(sb.s, key, |key|)(i)
    requires DecWords(ImixCol, enc, dec, keyLen + 24)
    ensures var nr := keyLen / 4 + 6;
      var y := CodeCipher(EncRounds(t), Quads(enc), nr, Pack(x));
      && y == Pack(Cipher(AesRounds(Gf, sb), KeySchedule(sb, key), nr, x))
      && CodeCipher(DecRounds(t), Quads(dec), nr, y) == Pack(x)
  {
    KeyedCipher(t, sb, key, enc, keyLen / 4 + 6, x);
    EveryKeyRoundTrips(t, sb, enc, dec, keyLen, Pack(x));
  }

  /** On the block `src` the code does what the key says: aes_encrypt is Cipher of FIPS-197 and aes_decrypt undoes it. */
  ghost predicate Works(t: Tables, sb: Sbox, key: seq<bv32>, enc: seq<bv32>, dec: seq<bv32>, src: Quad)
    requires key != []
  {
    var nr := |key| + 6;
    var y := CodeCipher(EncRounds(t), Quads(enc), nr, src);
    && y == Pack(Cipher(AesRounds(Gf, sb), KeySchedule(sb, key), nr, Unpack(src)))
    && CodeCipher(DecRounds(t), Quads(dec), nr, y) == src
  }

  lemma ExpandedWorks(t: Tables, sb: Sbox, key: seq<bv32>, enc: seq<bv32>, dec: seq<bv32>, keyLen: nat, src: Quad)
    requires Meets(t, Gf, sb) && Inverse(sb) && keyLen in {16, 24, 32} && keyLen == 4 * |key| && keyLen + 28 <= |enc|
    requires forall i :: 0 <= i < keyLen + 28 ==> enc[i] == KeyWords(sb.s, key, |key|)(i)
    requires DecWords(ImixCol, enc, dec, keyLen + 24)
    ensures Works(t, sb, key, enc, dec, src)
  {
    PackUnpack(src);
    KeyedCode(t, sb, key, enc, dec, keyLen, Unpack(src));
    assert keyLen / 4 + 6 == |key| + 6;
  }

  /** crypto_aes_set_key: once it accepts a key, the context works on every block. */
  method SetKey(c: AesCtx, t: Tables, key: seq<bv32>, keyLen: nat, ghost sb: Sbox) returns (ok: bool)
    requires c.Valid() && keyLen == 4 * |key| && Meets(t, Gf, sb) && Inverse(sb)
    modifies c, c.keyEnc, c.keyDec
    ensures c.Valid() && ok == (keyLen in {16, 24, 32})
    ensures !ok ==> c.keyLength == old(c.keyLength) && c.keyEnc[..] == old(c.keyEnc[..]) && c.keyDec[..] == old(c.keyDec[..])
    ensures ok ==> c.keyLength == keyLen && forall src: Quad :: Works(t, sb, key, c.keyEnc[..], c.keyDec[..], src)
  {
    ok := c.ExpandKey(t, key, keyLen, sb);
    if ok {
      ghost var enc, dec := c.keyEnc[..], c.keyDec[..];
      forall src: Quad ensures Works(t, sb, key, enc, dec, src) {
        ExpandedWorks(t, sb, key, enc, dec, keyLen, src);
      }
    }
  }
}
