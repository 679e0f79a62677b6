/** Nonlinear facts used by the addressing proofs. */
module Arith {
  lemma MulMono(a: nat, b: nat, c: nat)
    requires a <= b
    ensures a * c <= b * c && c * a <= c * b
  {}

  function Times(a: nat, b: nat): nat { a * b }

  function Quot(x: nat, d: nat): nat
    requires d > 0
  { x / d }

  function Rem(x: nat, d: nat): nat
    requires d > 0
  { x % d }

  /** One more group of `d` still fits below `b` groups. */
  lemma GroupFits(a: nat, b: nat, d: nat)
    requires a < b
    ensures a * d + d <= b * d
  {
    MulMono(a + 1, b, d);
    assert (a + 1) * d == a * d + d;
  }

  /** Mixed-radix digits are unique. */
  lemma DigitsUnique(q: nat, r: nat, q': nat, r': nat, d: nat)
    requires r < d && r' < d && q * d + r == q' * d + r'
    ensures q == q' && r == r'
  {
    if q < q' { GroupFits(q, q', d); }
    if q' < q { GroupFits(q', q, d); }
  }

  lemma DivModOf(q: nat, r: nat, d: nat)
    requires r < d
    ensures (q * d + r) / d == q && (q * d + r) % d == r
  {
    var x := q * d + r;
    assert x / d * d + x % d == x;
    DigitsUnique(x / d, x % d, q, r, d);
  }

  lemma DivModBounds(x: nat, d: nat, n: nat)
    requires d > 0 && x < n * d
    ensures x / d < n && x % d < d && x / d * d + x % d == x
  {
    if x / d >= n { MulMono(n, x / d, d); }
  }

  lemma Assoc(a: nat, b: nat, c: nat)
    ensures a * b * c == a * (b * c)
  {}

  lemma Distrib(a: nat, b: nat, c: nat)
    ensures (a + b) * c == a * c + b * c
  {}

  /** Flat position of (row, col) in a row-major matrix. */
  function Idx(row: nat, cols: nat, col: nat): nat { row * cols + col }

  lemma IdxBound(row: nat, rows: nat, cols: nat, col: nat)
    requires row < rows && col < cols
    ensures Idx(row, cols, col) < rows * cols
  {
    GroupFits(row, rows, cols);
  }

  lemma IdxDigits(row: nat, cols: nat, col: nat)
    requires col < cols
    ensures Quot(Idx(row, cols, col), cols) == row && Rem(Idx(row, cols, col), cols) == col
  {
    DivModOf(row, col, cols);
  }

  lemma DigitsIdx(x: nat, rows: nat, cols: nat)
    requires cols > 0 && x < rows * cols
    ensures Quot(x, cols) < rows && Rem(x, cols) < cols && Idx(Quot(x, cols), cols, Rem(x, cols)) == x
  {
    DivModBounds(x, cols, rows);
  }

  lemma IdxUnique(row: nat, cols: nat, col: nat, row': nat, col': nat)
    requires col < cols && col' < cols
    ensures Idx(row, cols, col) == Idx(row', cols, col') <==> row == row' && col == col'
  {
    if Idx(row, cols, col) == Idx(row', cols, col') { DigitsUnique(row, col, row', col', cols); }
  }
}
