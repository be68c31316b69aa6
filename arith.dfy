/**
  Integer arithmetic as the C code performs it, and the row-major indexing of
  an N x N grid stored in a flat array.
*/
module Arith {

  /**
    C's `%` on `int` (C99 section 6.5.5) for a positive divisor: the quotient
    is truncated toward zero, so a non-zero remainder takes the sign of the
    dividend. Dafny's own `%` is Euclidean and never negative; the two differ
    exactly when the dividend is negative and not a multiple of the divisor.
  */
  function CRem(a: int, b: int): (r: int)
    requires b > 0
    ensures a >= 0 ==> r == a % b
    ensures a < 0 ==> -b < r <= 0
  {
    if a >= 0 || a % b == 0 then a % b else a % b - b
  }

  /** The C remainder differs from the dividend by a multiple of the divisor. */
  lemma CRemCongruent(a: int, b: int)
    requires b > 0
    ensures (a - CRem(a, b)) % b == 0
  {
    var q, e := a / b, a % b;
    assert a == q * b + e && 0 <= e < b;
    if a >= 0 || e == 0 {
      assert a - CRem(a, b) == q * b + 0;
      DivModUnique(a - CRem(a, b), b, q, 0);
    } else {
      assert a - CRem(a, b) == (q + 1) * b + 0;
      DivModUnique(a - CRem(a, b), b, q + 1, 0);
    }
  }

  /** A product of a positive factor and a factor of at least one is at least the first. */
  lemma MulAtLeast(d: int, n: int)
    requires d >= 1 && n > 0
    ensures d * n >= n
  {
  }

  /** Division with remainder is unique: the quotient and remainder of k by n are determined. */
  lemma DivModUnique(k: int, n: int, q: int, r: int)
    requires n > 0 && 0 <= r < n && k == q * n + r
    ensures k / n == q && k % n == r
  {
    var q', r' := k / n, k % n;
    assert k == q' * n + r';
    if q > q' {
      MulAtLeast(q - q', n);
      assert false;
    } else if q < q' {
      MulAtLeast(q' - q, n);
      assert false;
    }
  }

  /**
    Cell (x, y) of an n x n grid lives at flat index y * n + x, and that index
    determines the cell: its column is the remainder and its row the quotient.
  */
  lemma CellIndex(x: int, y: int, n: int)
    requires 0 <= x < n && 0 <= y < n
    ensures 0 <= y * n + x < n * n
    ensures (y * n + x) / n == y && (y * n + x) % n == x
  {
    MulAtLeast(n - y, n);
    assert (n - y) * n == n * n - y * n;
    DivModUnique(y * n + x, n, y, x);
  }

  /**
    The neighbour coordinate of c at offset d in {-1, 0, 1} on a torus of
    size n: c + d inside the grid, wrapping across the edges, so coordinate
    0 sees n - 1 behind it and n - 1 sees 0 ahead of it.
  */
  function Wrap(c: int, d: int, n: int): (r: int)
    requires 0 <= c < n && -1 <= d <= 1
    ensures 0 <= r < n
    ensures r == c + d || (c + d == -1 && r == n - 1) || (c + d == n && r == 0)
  {
    if c + d < 0 then n - 1 else if c + d >= n then 0 else c + d
  }

  /** The flat index y * n + x of cell (x, y), inside the array of n * n cells. */
  function Idx(x: int, y: int, n: int): (k: int)
    requires 0 <= x < n && 0 <= y < n
    ensures 0 <= k < n * n
  {
    CellIndex(x, y, n);
    y * n + x
  }

  /** Every flat index of an n x n grid names a cell: column k % n, row k / n. */
  lemma FlatCell(k: int, n: int)
    requires n > 0 && 0 <= k < n * n
    ensures 0 <= k % n < n && 0 <= k / n < n
    ensures k == (k / n) * n + k % n
  {
  }

  /** A part over a positive whole lies between zero and one. */
  lemma FractionInUnit(part: real, whole: real)
    requires 0.0 <= part <= whole && whole > 0.0
    ensures 0.0 <= part / whole <= 1.0
  {
  }

  /** Moving to the next row advances the flat index by one full row. */
  lemma NextRow(y: int, n: int)
    ensures (y + 1) * n == y * n + n
  {
  }
}
