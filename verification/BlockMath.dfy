/** Block arithmetic: how positions of a sequence fall into fixed-size blocks. */
module BlockMath {

  /** Python's `-(-n // b)`: floor division of the negation, so it rounds up. */
  function CeilDiv(n: int, b: int): int
    requires b > 0
  {
    -((-n) / b)
  }

  /** `CeilDiv(n, b)` is the least number of blocks of size `b` that hold `n` tokens. */
  lemma CeilDivBounds(n: int, b: int)
    requires b > 0
    ensures (CeilDiv(n, b) - 1) * b < n <= CeilDiv(n, b) * b
  {
    var q := (-n) / b;
    assert -n == q * b + (-n) % b;
    assert (CeilDiv(n, b) - 1) * b == -(q * b) - b;
    assert CeilDiv(n, b) * b == -(q * b);
  }

  lemma MulLe(x: int, y: int, b: int)
    requires b > 0 && x <= y
    ensures x * b <= y * b
  {
    assert y * b == x * b + (y - x) * b;
  }

  lemma MulMono(x: int, y: int, b: int)
    requires b > 0 && x * b < y * b
    ensures x < y
  {
    if y <= x { MulLe(y, x, b); }
  }

  lemma CeilDivLeast(n: int, b: int, c: int)
    requires b > 0
    ensures n <= c * b <==> CeilDiv(n, b) <= c
  {
    CeilDivBounds(n, b);
    if n <= c * b {
      MulMono(CeilDiv(n, b) - 1, c, b);
    }
    if CeilDiv(n, b) <= c {
      MulLe(CeilDiv(n, b), c, b);
    }
  }

  lemma CeilDivMono(m: int, n: int, b: int)
    requires b > 0 && m <= n
    ensures CeilDiv(m, b) <= CeilDiv(n, b)
  {
    CeilDivBounds(n, b);
    CeilDivLeast(m, b, CeilDiv(n, b));
  }

  /** One more token needs at most one more block. */
  lemma CeilDivStep(n: int, b: int)
    requires b > 0
    ensures CeilDiv(n, b) <= CeilDiv(n + 1, b) <= CeilDiv(n, b) + 1
  {
    CeilDivMono(n, n + 1, b);
    CeilDivBounds(n, b);
    assert (CeilDiv(n, b) + 1) * b == CeilDiv(n, b) * b + b;
    CeilDivLeast(n + 1, b, CeilDiv(n, b) + 1);
  }

  lemma CeilDivPositive(n: int, b: int)
    requires b > 0
    ensures n > 0 ==> CeilDiv(n, b) > 0
    ensures n >= 0 ==> CeilDiv(n, b) >= 0
    ensures 0 < n <= b ==> CeilDiv(n, b) == 1
    ensures n == 0 ==> CeilDiv(n, b) == 0
  {
    CeilDivBounds(n, b);
    CeilDivLeast(n, b, 0);
    CeilDivLeast(n, b, -1);
    CeilDivLeast(n, b, 1);
  }

  /** A position below `n` lies in one of the first `c` blocks when `c` blocks hold `n` tokens. */
  lemma PositionInBlock(j: nat, b: nat, c: int)
    requires b > 0 && j < c * b
    ensures 0 <= j / b < c && 0 <= j % b < b
  {
    assert j == j / b * b + j % b;
    MulMono(j / b, c, b);
  }

  /** Distinct positions occupy distinct (block, offset) cells. */
  lemma CellDeterminesPosition(i: nat, j: nat, b: nat)
    requires b > 0 && i / b == j / b && i % b == j % b
    ensures i == j
  {
    assert i == i / b * b + i % b;
    assert j == j / b * b + j % b;
  }

  lemma FirstBlock(j: nat, b: nat)
    requires j < b
    ensures j / b == 0 && j % b == j
  {
  }
}
