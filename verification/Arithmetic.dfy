/** Multiplication and division facts behind flattened indices. */
module Arithmetic {

  lemma MulDistributes(a: int, b: int, m: int)
    ensures (a + b) * m == a * m + b * m
  {
  }

  lemma {:induction false} MulMonotone(a: nat, b: nat, m: nat)
    requires a <= b
    ensures a * m <= b * m
    decreases b
  {
    if a < b {
      MulMonotone(a, b - 1, m);
      MulDistributes(b - 1, 1, m);
    }
  }

  /** Quotient and remainder are determined by their defining equation. */
  lemma DivisionUnique(x: nat, m: nat, q: nat, r: nat)
    requires x == q * m + r && r < m
    ensures x / m == q && x % m == r
  {
    var q', r' := x / m, x % m;
    assert x == q' * m + r';
    if q < q' {
      MulMonotone(q + 1, q', m);
      MulDistributes(q, 1, m);
    } else if q' < q {
      MulMonotone(q' + 1, q, m);
      MulDistributes(q', 1, m);
    }
  }

  /** Element `j` of row `w` in a flattened array of `rows` rows of `m` elements. */
  lemma RowMajor(w: nat, rows: nat, m: nat, j: nat)
    requires w < rows && j < m
    ensures w * m + j < rows * m
    ensures (w * m + j) / m == w && (w * m + j) % m == j
  {
    MulMonotone(w + 1, rows, m);
    MulDistributes(w, 1, m);
    DivisionUnique(w * m + j, m, w, j);
  }

  /** a * m as repeated addition. */
  function Times(a: int, m: nat): (p: nat)
  {
    if a <= 0 then 0 else Times(a - 1, m) + m
  }

  lemma {:induction false} TimesIsProduct(a: nat, m: nat)
    ensures Times(a, m) == a * m
  {
    if a > 0 { TimesIsProduct(a - 1, m); }
  }

  lemma {:induction false} TimesMonotone(a: int, b: int, m: nat)
    requires a <= b
    ensures Times(a, m) <= Times(b, m)
    decreases b - a
  {
    if a < b { TimesMonotone(a, b - 1, m); }
  }
}
