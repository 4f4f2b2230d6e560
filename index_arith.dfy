/** Small facts about flat row-major indices (`q * h + r` with `r < h`) used by the
    kernels and loaders, all of which address multi-dimensional data through one flat offset. */
module IndexArith {

  lemma MulLe(a: int, b: int, c: nat)
    requires a <= b
    ensures a * c <= b * c
  {
  }

  /** A flat index `q * h + r` with `r < h` determines its row `q` and column `r`. */
  lemma DivModUnique(q1: int, r1: int, q2: int, r2: int, h: int)
    requires h > 0 && 0 <= r1 < h && 0 <= r2 < h
    requires q1 * h + r1 == q2 * h + r2
    ensures q1 == q2 && r1 == r2
  {
    if q1 < q2 {
      MulLe(q1 + 1, q2, h);
    } else if q2 < q1 {
      MulLe(q2 + 1, q1, h);
    }
  }

  /** Division and remainder recover the row and column of a flat index. */
  lemma DivModOf(q: int, r: int, h: int)
    requires h > 0 && 0 <= r < h
    ensures (q * h + r) / h == q && (q * h + r) % h == r
  {
    var i := q * h + r;
    assert i == (i / h) * h + i % h;
    DivModUnique(i / h, i % h, q, r, h);
  }

  /** An index below `n * h` has its row below `n`. */
  lemma RowBound(i: int, n: int, h: int)
    requires h > 0 && 0 <= i < n * h
    ensures 0 <= i / h < n
  {
    assert i == (i / h) * h + i % h;
    if i / h >= n {
      MulLe(n, i / h, h);
    }
  }

  /** The last slot of row `q` of width `h` is still below the start of row `q + 1`,
      and rows below `n` stay below `n * h`. */
  lemma RowEnd(q: int, r: int, n: int, h: int)
    requires h > 0 && 0 <= r < h && 0 <= q < n
    ensures 0 <= q * h + r < n * h
  {
    MulLe(q + 1, n, h);
    assert (q + 1) * h == q * h + h;
    MulLe(0, q, h);
  }

  /** Distributing a product over a difference. */
  lemma MulSub(a: nat, b: nat, c: nat)
    requires b <= a
    ensures (a - b) * c + b * c == a * c
  {
    assert (a - b) * c + b * c == ((a - b) + b) * c;
  }

  lemma MulRearrange(a: int, b: int, c: int)
    ensures (a * c) * b == c * (a * b)
  {
  }

  lemma MulSwapInner(a: int, b: int, c: int)
    ensures a * (b * c) == (a * c) * b
  {
  }

  lemma MulDistrib(a: int, b: int, c: int)
    ensures a * c + b * c == (a + b) * c
  {
  }

  /** A product of naturals is positive exactly when both factors are. */
  lemma MulPos(a: nat, b: nat)
    ensures a * b > 0 <==> a > 0 && b > 0
  {
    if a > 0 && b > 0 {
      MulLe(1, a, b);
    }
  }
}
