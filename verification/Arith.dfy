/** Facts about rounding and about the split of a cache slot into block and offset. */
module Arith {

  lemma MulMonotone(x: int, y: int, b: int)
    requires b >= 0
    ensures x <= y ==> x * b <= y * b
  {
  }

  lemma MulCancel(x: int, y: int, b: int)
    requires b > 0 && x * b < y * b + b
    ensures x <= y
  {
    MulMonotone(y + 1, x, b);
    assert (y + 1) * b == y * b + b;
  }

  /** The number of blocks of size b that n tokens need, rounded up. */
  function CeilDiv(n: nat, b: nat): nat
    requires b > 0
  {
    (n + b - 1) / b
  }

  lemma CeilDivBounds(n: nat, b: nat)
    requires b > 0
    ensures n <= CeilDiv(n, b) * b < n + b
  {
    var q := (n + b - 1) / b;
    assert (n + b - 1) == q * b + (n + b - 1) % b;
  }

  /** x == d * b + m fixes d and m when m is a remainder. */
  lemma DivModUnique(x: int, b: int, d: int, m: int)
    requires b > 0 && 0 <= m < b
    requires x == d * b + m
    ensures x / b == d && x % b == m
  {
    var q, r := x / b, x % b;
    assert x == q * b + r;
    MulCancel(q, d, b);
    MulCancel(d, q, b);
  }

  /** A rounding result is determined by its two bounds. */
  lemma CeilDivUnique(n: nat, b: nat, q: nat)
    requires b > 0
    requires n <= q * b < n + b
    ensures CeilDiv(n, b) == q
  {
    CeilDivBounds(n, b);
    MulCancel(CeilDiv(n, b), q, b);
    MulCancel(q, CeilDiv(n, b), b);
  }

  lemma CeilDivMonotone(m: nat, n: nat, b: nat)
    requires b > 0 && m <= n
    ensures CeilDiv(m, b) <= CeilDiv(n, b)
  {
    CeilDivBounds(m, b);
    CeilDivBounds(n, b);
    MulCancel(CeilDiv(m, b), CeilDiv(n, b), b);
  }

  /** A position below q * b lies in one of the first q blocks. */
  lemma BlockIndexBound(p: nat, b: nat, q: nat)
    requires b > 0 && p < q * b
    ensures p / b < q
  {
    assert p == (p / b) * b + p % b;
    MulCancel(p / b, q - 1, b);
  }

  /** Slots of in-range blocks are in range. */
  lemma SlotBound(block: int, b: int, n: int, o: int)
    requires 0 <= block < n && 0 <= o < b
    ensures 0 <= block * b + o < n * b
  {
    assert (n - 1 - block) * b >= 0;
    assert n * b == block * b + b + (n - 1 - block) * b;
  }
}
