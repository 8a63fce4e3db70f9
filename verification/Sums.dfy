/** Finite sums of reals, and one fact about products. */
module Sums {

  function Sum(n: nat, f: nat -> real): real {
    if n == 0 then 0.0 else Sum(n - 1, f) + f(n - 1)
  }

  lemma {:induction false} SumExt(n: nat, f: nat -> real, g: nat -> real)
    requires forall k: nat :: k < n ==> f(k) == g(k)
    ensures Sum(n, f) == Sum(n, g)
  {
    if n > 0 {
      SumExt(n - 1, f, g);
    }
  }

  lemma {:induction false} SumAdd(n: nat, f: nat -> real, g: nat -> real, h: nat -> real)
    requires forall k: nat :: k < n ==> h(k) == f(k) + g(k)
    ensures Sum(n, h) == Sum(n, f) + Sum(n, g)
  {
    if n > 0 {
      SumAdd(n - 1, f, g, h);
    }
  }

  lemma {:induction false} SumScale(n: nat, a: real, f: nat -> real, h: nat -> real)
    requires forall k: nat :: k < n ==> h(k) == a * f(k)
    ensures Sum(n, h) == a * Sum(n, f)
  {
    if n > 0 {
      SumScale(n - 1, a, f, h);
      Distribute(a, Sum(n - 1, f), f(n - 1));
    }
  }

  lemma Distribute(a: real, b: real, c: real)
    ensures a * (b + c) == a * b + a * c
  {
  }

  lemma {:induction false} SumMonotone(n: nat, f: nat -> real, g: nat -> real)
    requires forall k: nat :: k < n ==> f(k) <= g(k)
    ensures Sum(n, f) <= Sum(n, g)
  {
    if n > 0 {
      SumMonotone(n - 1, f, g);
    }
  }

  lemma {:induction false} SumZero(n: nat, f: nat -> real)
    requires forall k: nat :: k < n ==> f(k) == 0.0
    ensures Sum(n, f) == 0.0
  {
    if n > 0 {
      SumZero(n - 1, f);
    }
  }

  /** A sum with one non-zero term. */
  lemma {:induction false} SumPoint(n: nat, f: nat -> real, p: nat)
    requires p < n && forall k: nat :: k < n && k != p ==> f(k) == 0.0
    ensures Sum(n, f) == f(p)
  {
    if p < n - 1 {
      SumPoint(n - 1, f, p);
    } else {
      SumZero(n - 1, f);
    }
  }

  function Shift(f: nat -> real, m: nat): nat -> real { (k: nat) => f(m + k) }

  lemma {:induction false} SumSplit(m: nat, n: nat, f: nat -> real)
    ensures Sum(m + n, f) == Sum(m, f) + Sum(n, Shift(f, m))
  {
    if n > 0 {
      SumSplit(m, n - 1, f);
    }
  }

  /** A sum over a row-major table is the sum of its rows' sums. */
  lemma {:induction false} SumRows(rows: nat, cols: nat, f: nat -> real, row: nat -> real)
    requires forall i: nat :: i < rows ==> row(i) == Sum(cols, Shift(f, i * cols))
    ensures Sum(rows * cols, f) == Sum(rows, row)
  {
    hide Shift;
    if rows > 0 {
      SumRows(rows - 1, cols, f, row);
      assert rows * cols == (rows - 1) * cols + cols;
      SumSplit((rows - 1) * cols, cols, f);
    }
  }

  lemma SmallerFactor(q: nat, n: nat, size: nat)
    requires q * size < n * size
    ensures q < n
  {
    assert q >= n ==> q * size >= n * size;
  }
}
