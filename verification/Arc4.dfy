/** ARC4 as in crypto/arc4.c: a software-pipelined loop against the textbook generator. */
module Arc4 {
  import opened Common

  // ---------------------------------------------------------------- additive stream ciphers

  function Iterate<G>(next: G -> G, g: G, n: nat): G {
    if n == 0 then g else next(Iterate(next, g, n - 1))
  }

  /** Each symbol is mixed with the state reached by one more step. */
  function Stream<G, B>(next: G -> G, mix: (B, G) -> B, g: G, text: seq<B>): (r: seq<B>)
    ensures |r| == |text|
  {
    if text == [] then []
    else
      var n := |text| - 1;
      Stream(next, mix, g, text[..n]) + [mix(text[n], Iterate(next, g, n + 1))]
  }

  ghost predicate Involutive<G(!new), B(!new)>(mix: (B, G) -> B) {
    forall b: B, g: G :: mix(mix(b, g), g) == b
  }

  lemma {:induction false} StreamTwice<G(!new), B(!new)>(next: G -> G, mix: (B, G) -> B, g: G, text: seq<B>)
    requires Involutive(mix)
    ensures Stream(next, mix, g, Stream(next, mix, g, text)) == text
  {
    if text != [] {
      var n := |text| - 1;
      var c := Stream(next, mix, g, text);
      StreamTwice(next, mix, g, text[..n]);
      assert c[..n] == Stream(next, mix, g, text[..n]);
      assert text == text[..n] + [text[n]];
    }
  }

  lemma {:induction false} IteratePlus<G>(next: G -> G, g: G, m: nat, n: nat)
    ensures Iterate(next, Iterate(next, g, m), n) == Iterate(next, g, m + n)
  {
    if n > 0 {
      IteratePlus(next, g, m, n - 1);
    }
  }

  lemma {:induction false} StreamConcat<G, B>(next: G -> G, mix: (B, G) -> B, g: G, u: seq<B>, v: seq<B>)
    ensures Stream(next, mix, g, u + v)
         == Stream(next, mix, g, u) + Stream(next, mix, Iterate(next, g, |u|), v)
  {
    if v == [] {
      assert u + v == u;
    } else {
      var n := |v| - 1;
      assert (u + v)[..|u| + n] == u + v[..n];
      StreamConcat(next, mix, g, u, v[..n]);
      IteratePlus(next, g, |u|, n + 1);
    }
  }

  function Flatten<B>(chunks: seq<seq<B>>): seq<B> {
    if chunks == [] then [] else chunks[0] + Flatten(chunks[1..])
  }

  /** A text handed over chunk by chunk, the state carried from each to the next. */
  function Chunked<G, B>(next: G -> G, mix: (B, G) -> B, g: G, chunks: seq<seq<B>>): seq<B> {
    if chunks == [] then []
    else Stream(next, mix, g, chunks[0]) + Chunked(next, mix, Iterate(next, g, |chunks[0]|), chunks[1..])
  }

  lemma {:induction false} ChunksAsOne<G, B>(next: G -> G, mix: (B, G) -> B, g: G, chunks: seq<seq<B>>)
    ensures Chunked(next, mix, g, chunks) == Stream(next, mix, g, Flatten(chunks))
  {
    if chunks != [] {
      ChunksAsOne(next, mix, Iterate(next, g, |chunks[0]|), chunks[1..]);
      StreamConcat(next, mix, g, chunks[0], Flatten(chunks[1..]));
    }
  }

  // ---------------------------------------------------------------- the textbook generator

  predicate Differ(S: seq<nat>, i: nat, j: nat)
    requires i < |S| && j < |S|
  {
    S[i] != S[j]
  }

  /** A permutation of 0..255. */
  predicate Perm(S: seq<nat>) {
    && |S| == 256
    && (forall i :: 0 <= i < 256 ==> S[i] < 256)
    && forall i, j :: 0 <= i < j < 256 ==> Differ(S, i, j)
  }

  function Swap(S: seq<nat>, i: nat, j: nat): (r: seq<nat>)
    requires i < |S| && j < |S|
    ensures |r| == |S|
  {
    S[i := S[j]][j := S[i]]
  }

  lemma SwapPerm(S: seq<nat>, i: nat, j: nat)
    requires Perm(S) && i < 256 && j < 256
    ensures Perm(Swap(S, i, j))
  {
    var r := Swap(S, i, j);
    forall k, l | 0 <= k < l < 256 ensures Differ(r, k, l) {
      var k' := if k == i then j else if k == j then i else k;
      var l' := if l == i then j else if l == j then i else l;
      assert r[k] == S[k'] && r[l] == S[l'];
      assert if k' < l' then Differ(S, k', l') else Differ(S, l', k');
    }
  }

  function Mod(n: nat): (r: nat)
    ensures r < 256
  {
    n % 256
  }

  function Identity(): (S: seq<nat>)
    ensures Perm(S)
  {
    seq(256, i => i)
  }

  /** The table and the two indices of the generator. */
  datatype Indexed = Indexed(S: seq<nat>, i: nat, j: nat)

  type Gen = g: Indexed | Perm(g.S) && g.i < 256 && g.j < 256
    witness Indexed(Identity(), 0, 0)

  function Next(g: Gen): Gen {
    var i := Mod(g.i + 1);
    var j := Mod(g.j + g.S[i]);
    SwapPerm(g.S, i, j);
    Indexed(Swap(g.S, i, j), i, j)
  }

  function Output(g: Gen): (k: nat)
    ensures k < 256
  {
    g.S[Mod(g.S[g.i] + g.S[g.j])]
  }

  /** A byte of data xor a byte of the key stream. */
  function Xor(b: bv8, k: nat): bv8
    requires k < 256
  {
    b ^ (k as bv8)
  }

  function Mix(b: bv8, g: Gen): bv8 {
    Xor(b, Output(g))
  }

  function After(g: Gen, n: nat): Gen {
    Iterate(Next, g, n)
  }

  /** Encryption, and decryption, of a message. */
  function Crypt(g: Gen, text: seq<bv8>): (r: seq<bv8>)
    ensures |r| == |text|
  {
    Stream(Next, Mix, g, text)
  }

  lemma XorTwice(b: bv8, k: nat)
    requires k < 256
    ensures Xor(Xor(b, k), k) == b
  {
    var m := k as bv8;
    assert (b ^ m) ^ m == b;
  }

  /** Running twice from equal states gives the text back. */
  lemma CryptTwice(g: Gen, text: seq<bv8>)
    ensures Crypt(g, Crypt(g, text)) == text
  {
    forall b: bv8, h: Gen ensures Mix(Mix(b, h), h) == b {
      XorTwice(b, Output(h));
    }
    StreamTwice(Next, Mix, g, text);
  }

  /** A text in two parts, the second from where the first left the generator. */
  lemma CryptConcat(g: Gen, u: seq<bv8>, v: seq<bv8>)
    ensures Crypt(g, u + v) == Crypt(g, u) + Crypt(After(g, |u|), v)
  {
    StreamConcat(Next, Mix, g, u, v);
  }

  /** However the walk over a scatter list cuts the text, the bytes out are the same. */
  lemma WalkCutsAnywhere(g: Gen, chunks: seq<seq<bv8>>)
    ensures Chunked(Next, Mix, g, chunks) == Crypt(g, Flatten(chunks))
  {
    ChunksAsOne(Next, Mix, g, chunks);
  }

  lemma AfterMore(g: Gen, n: nat)
    ensures After(g, n + 1) == Next(After(g, n))
  {
  }

  lemma CryptMore(g: Gen, text: seq<bv8>, n: nat)
    requires n < |text|
    ensures Crypt(g, text[..n + 1]) == Crypt(g, text[..n]) + [Mix(text[n], After(g, n + 1))]
  {
    assert text[..n + 1][..n] == text[..n];
  }

  /** The pipelined loop's variables, fetched one step ahead of the generator. */
  predicate Fetched(h: Gen, x: nat, y: nat, a: nat, b: nat) {
    x == Mod(h.i + 1) && a == h.S[x] && y == Mod(h.j + a) && b == h.S[y]
  }

  /** The context's indices for a generator: `x` is one step ahead. */
  predicate Indices(h: Gen, x: nat, y: nat) {
    x == Mod(h.i + 1) && y == h.j
  }

  /** Storing the fetched pair crosswise is the generator's swap, and names the output. */
  lemma FetchedStep(h: Gen, x: nat, y: nat, a: nat, b: nat)
    requires Fetched(h, x, y, a, b)
    ensures Next(h) == Indexed(h.S[y := a][x := b], x, y)
    ensures Output(Next(h)) == Next(h).S[Mod(a + b)]
  {
    assert h.S[y := a][x := b] == Swap(h.S, x, y);
  }

  /** Each byte is combined, by exclusive or, with the table entry that the generator's indices name after one more
      step for each byte: it depends on the state and the position only. */
  lemma {:induction false} CryptAt(g: Gen, text: seq<bv8>, n: nat)
    requires n < |text|
    ensures var h := After(g, n + 1); Crypt(g, text)[n] == text[n] ^ (h.S[(h.S[h.i] + h.S[h.j]) % 256] as bv8)
  {
    if n < |text| - 1 {
      CryptAt(g, text[..|text| - 1], n);
    }
  }

  // ---------------------------------------------------------------- key setup

  /** The textbook key schedule after `n` rounds: the table and the running index. */
  function Mixed(key: seq<nat>, n: nat): (g: Gen)
    requires key != [] && n <= 256
  {
    if n == 0 then Indexed(Identity(), 0, 0)
    else
      var g := Mixed(key, n - 1);
      var j := Mod(g.j + key[(n - 1) % |key|] + g.S[n - 1]);
      SwapPerm(g.S, n - 1, j);
      Indexed(Swap(g.S, n - 1, j), 0, j)
  }

  lemma {:induction false} MixedMore(key: seq<nat>, n: nat, j: nat)
    requires key != [] && n < 256 && j == Mod(Mixed(key, n).j + key[n % |key|] + Mixed(key, n).S[n])
    ensures Mixed(key, n + 1) == Indexed(Swap(Mixed(key, n).S, n, j), 0, j)
  {
  }

  /** What a key sets up. */
  function Keyed(key: seq<nat>): (g: Gen)
    requires key != []
  {
    Indexed(Mixed(key, 256).S, 0, 0)
  }

  /** The wrapping counter is the round modulo the key length. */
  lemma WrapIndex(k: nat, n: nat, len: nat)
    requires len > 0 && k == n % len
    ensures (n + 1) % len == if k + 1 >= len then 0 else k + 1
  {
    Euclid(n, len);
    if k + 1 >= len {
      MulMinus(n / len + 1, 1, len);
      ModIs(n / len + 1, len, 0);
    } else {
      ModIs(n / len, len, k + 1);
    }
  }

  class Arc4Ctx {
    const S: array<nat>
    var x: nat
    var y: nat

    /** The context holds the textbook state, with `x` one step ahead of its index. */
    ghost predicate Holds(g: Gen)
      reads this, S
    {
      S.Length == 256 && S[..] == g.S && Indices(g, x, y)
    }

    constructor ()
      ensures S.Length == 256 && fresh(S)
    {
      S := new nat[256];
      x, y := 0, 0;
    }

    method FillIdentity()
      requires S.Length == 256
      modifies S
      ensures S[..] == Identity()
    {
      var i := 0;
      while i < 256
        invariant 0 <= i <= 256 && forall k :: 0 <= k < i ==> S[k] == k
      {
        S[i] := i;
        i := i + 1;
      }
    }

    /** One round of the key schedule. */
    method Exchange(i: nat, j: nat)
      requires S.Length == 256 && i < 256 && j < 256
      modifies S
      ensures S[..] == Swap(old(S[..]), i, j)
    {
      var a := S[i];
      S[i] := S[j];
      S[j] := a;
    }

    /** arc4_set_key. */
    method SetKey(key: seq<nat>)
      requires S.Length == 256 && key != []
      modifies this, S
      ensures Holds(Keyed(key))
    {
      x, y := 1, 0;
      FillIdentity();
      var i: nat, j: nat, k: nat := 0, 0, 0;
      while i < 256
        invariant i <= 256 && k == i % |key|
        invariant x == 1 && y == 0
        invariant S[..] == Mixed(key, i).S && j == Mixed(key, i).j
      {
        WrapIndex(k, i, |key|);
        j := Mod(j + key[k] + S[..][i]);
        MixedMore(key, i, j);
        Exchange(i, j);
        k := k + 1;
        if k >= |key| {
          k := 0;
        }
        i := i + 1;
      }
    }

    /** Both stores of one step. */
    method StorePair(x: nat, y: nat, a: nat, b: nat)
      requires S.Length == 256 && x < 256 && y < 256
      modifies S
      ensures S[..] == old(S[..])[y := a][x := b]
    {
      S[y] := a;
      S[x] := b;
    }

    /** The body of the loop up to the length test: store, output, and fetch the next pair. */
    method OneByte(ghost h: Gen, x: nat, y: nat, a: nat, b: nat, dst: array<bv8>, src: array<bv8>, n: nat)
      returns (x': nat, ty: nat, ta: nat, tb: nat)
      requires S.Length == 256 && S[..] == h.S && Fetched(h, x, y, a, b)
      requires n < src.Length == dst.Length && (S as object) !in {dst as object, src}
      modifies S, dst
      ensures S[..] == Next(h).S && Indices(Next(h), x', y)
      ensures Fetched(Next(h), x', ty, ta, tb)
      ensures dst[..] == old(dst[..])[n := Mix(old(src[n]), Next(h))]
    {
      FetchedStep(h, x, y, a, b);
      StorePair(x, y, a, b);
      var k := Mod(a + b);
      x' := Mod(x + 1);
      ta := S[..][x'];
      ty := Mod(y + ta);
      tb := S[..][ty];
      dst[n] := Xor(src[n], S[..][k]);
    }

    /** The loop of arc4_crypt, from the first fetched pair to the last byte. */
    method CryptBytes(ghost g: Gen, x: nat, y: nat, a: nat, b: nat, dst: array<bv8>, src: array<bv8>)
      returns (x': nat, y': nat)
      requires S.Length == 256 && S[..] == g.S && Fetched(g, x, y, a, b)
      requires 0 < src.Length == dst.Length && (S as object) !in {dst as object, src}
      modifies S, dst
      ensures dst[..] == Crypt(g, old(src[..]))
      ensures S[..] == After(g, src.Length).S && Indices(After(g, src.Length), x', y')
    {
      var a, b, n := a, b, 0;
      x', y' := x, y;
      ghost var text := src[..];
      ghost var h := g;
      while true
        invariant 0 <= n < src.Length && h == After(g, n)
        invariant S[..] == h.S && Fetched(h, x', y', a, b)
        invariant dst[..][..n] == Crypt(g, text[..n]) && src[..][n..] == text[n..]
        decreases src.Length - n
      {
        AfterMore(g, n);
        CryptMore(g, text, n);
        TailMore(src[..], text, n);
        WroteOne(dst[..], n, Mix(text[n], Next(h)));
        var x1, ty, ta, tb := OneByte(h, x', y', a, b, dst, src, n);
        h, x', n := Next(h), x1, n + 1;
        if n == src.Length {
          WholeTake(text);
          WholeTake(dst[..]);
          break;
        }
        assert src[..][n..] == text[n..];
        y', a, b := ty, ta, tb;
      }
    }

    /** arc4_crypt; `dst` may be `src` itself, and neither is the context's table. */
    method CryptBuffer(ghost g: Gen, dst: array<bv8>, src: array<bv8>)
      requires Holds(g) && dst.Length == src.Length && (S as object) !in {dst as object, src}
      modifies this, S, dst
      ensures dst[..] == Crypt(g, old(src[..]))
      ensures Holds(After(g, src.Length))
    {
      if src.Length == 0 {
        return;
      }
      var a := S[..][x];
      var y1 := Mod(y + a);
      var b := S[..][y1];
      x, y := CryptBytes(g, x, y1, a, b, dst, src);
    }
  }

  lemma WholeTake<B>(s: seq<B>)
    ensures s[..|s|] == s
  {
  }

  lemma TailMore<B>(s: seq<B>, t: seq<B>, n: nat)
    requires n < |s| == |t| && s[n..] == t[n..]
    ensures s[n] == t[n] && s[n + 1..] == t[n + 1..]
  {
    assert s[n] == s[n..][0] && t[n] == t[n..][0];
    assert s[n + 1..] == s[n..][1..] && t[n + 1..] == t[n..][1..];
  }

  lemma WroteOne<B>(s: seq<B>, n: nat, b: B)
    requires n < |s|
    ensures s[n := b][..n + 1] == s[..n] + [b]
    ensures s[n := b][n + 1..] == s[n + 1..]
  {
  }
}
