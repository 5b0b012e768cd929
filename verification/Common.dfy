/** What several modules share: optional values, the larger of two numbers, and division facts. */
module Common {

  datatype Option<T> = None | Some(value: T)

  function Max(a: nat, b: nat): nat {
    if a > b then a else b
  }

  lemma MulAtLeast(k: int, d: nat)
    requires k >= 1
    ensures k * d >= d
  {
  }

  lemma MulMinus(a: int, b: int, d: int)
    ensures (a - b) * d == a * d - b * d
  {
  }

  lemma Unique(q: int, r: int, q': int, r': int, d: nat)
    requires q * d + r == q' * d + r' && 0 <= r < d && 0 <= r' < d
    ensures q == q' && r == r'
  {
    if q > q' {
      MulMinus(q, q', d);
      MulAtLeast(q - q', d);
    } else if q < q' {
      MulMinus(q', q, d);
      MulAtLeast(q' - q, d);
    }
  }

  lemma Euclid(x: int, d: nat)
    requires d > 0
    ensures x == (x / d) * d + x % d && 0 <= x % d < d
  {
  }

  lemma ModIs(q: int, d: nat, r: nat)
    requires r < d
    ensures (q * d + r) % d == r
  {
    var x := q * d + r;
    Euclid(x, d);
    Unique(q, r, x / d, x % d, d);
  }
}
