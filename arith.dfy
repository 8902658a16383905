/** Integer and real arithmetic facts the other modules share: monotonicity
    of multiplication, uniqueness of Euclidean division, and the two real
    identities the zoom proofs need. */
module Arith {

  lemma MulMono(a: int, b: int, c: int)
    requires a <= b && 0 <= c
    ensures a * c <= b * c
  {
  }

  /** Euclidean division is determined by the quotient-remainder equation. */
  lemma DivModUnique(x: int, d: int, q: int, r: int)
    requires 0 < d && 0 <= r < d && x == q * d + r
    ensures x / d == q && x % d == r
  {
    var q', r' := x / d, x % d;
    assert x == q' * d + r' && 0 <= r' < d;
    if q' < q {
      MulMono(q' + 1, q, d);
    } else if q < q' {
      MulMono(q + 1, q', d);
    }
  }

  /** Adding k after reducing mod m gives the same residue as before. */
  lemma ModShift(a: int, k: int, m: int)
    requires m > 0
    ensures (a % m + k) % m == (a + k) % m
  {
    var x, q := a + k, a / m;
    assert a % m + k == x - q * m;
    assert x - q * m == (x / m - q) * m + x % m;
    DivModUnique(x - q * m, m, x / m - q, x % m);
  }

  lemma ScaledPositive(e: real, f: real)
    requires e > 0.0 && f > 0.0
    ensures e * f > 0.0
  {
  }

  lemma DivideLater(a: real, b: real, d: real)
    requires d != 0.0
    ensures (a / d) * b == a * b / d
  {
  }
}
