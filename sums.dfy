/** Finite sums of real-valued functions over 0 .. n-1, used to state what accumulation loops compute. */
module Sums {

  /** f(0) + f(1) + ... + f(n-1), added in that order. */
  function Sum(n: int, f: int -> real): real
    decreases n
  {
    if n <= 0 then 0.0 else Sum(n - 1, f) + f(n - 1)
  }

  /** Sums of functions that agree on 0 .. n-1 are equal. */
  lemma {:induction false} SumExt(n: int, f: int -> real, g: int -> real)
    requires forall i | 0 <= i < n :: f(i) == g(i)
    ensures Sum(n, f) == Sum(n, g)
    decreases n
  {
    if n > 0 {
      SumExt(n - 1, f, g);
    }
  }

  /** A sum of zeros is zero. */
  lemma {:induction false} SumZero(n: int, f: int -> real)
    requires forall i | 0 <= i < n :: f(i) == 0.0
    ensures Sum(n, f) == 0.0
    decreases n
  {
    if n > 0 {
      SumZero(n - 1, f);
    }
  }

  /**
   * Changing one term by `delta` changes the sum by `delta` when that term
   * is in range, and not at all otherwise.
   */
  lemma {:induction false} SumPoint(n: int, f: int -> real, g: int -> real, at: int, delta: real)
    requires forall i | 0 <= i < n && i != at :: f(i) == g(i)
    requires 0 <= at < n ==> g(at) == f(at) + delta
    ensures Sum(n, g) == Sum(n, f) + (if 0 <= at < n then delta else 0.0)
    decreases n
  {
    if n > 0 {
      SumPoint(n - 1, f, g, at, delta);
    }
  }

  /** A sum whose only non-zero term is at `at`. */
  lemma SumSingle(n: int, f: int -> real, at: int)
    requires 0 <= at < n
    requires forall i | 0 <= i < n && i != at :: f(i) == 0.0
    ensures Sum(n, f) == f(at)
  {
    var zero := (i: int) => 0.0;
    SumZero(n, zero);
    SumPoint(n, zero, f, at, f(at));
  }

  /** n equal terms add up to n times the term. */
  lemma {:induction false} SumConstant(n: int, f: int -> real, c: real)
    requires n >= 0
    requires forall i | 0 <= i < n :: f(i) == c
    ensures Sum(n, f) == c * n as real
    decreases n
  {
    if n > 0 {
      SumConstant(n - 1, f, c);
    }
  }

  /** Terms between lo and hi add up to between n lo and n hi. */
  lemma {:induction false} SumBounds(n: int, f: int -> real, lo: real, hi: real)
    requires n >= 0
    requires forall i | 0 <= i < n :: lo <= f(i) <= hi
    ensures lo * n as real <= Sum(n, f) <= hi * n as real
    decreases n
  {
    if n > 0 {
      SumBounds(n - 1, f, lo, hi);
    }
  }

  /** A constant factor comes out of a sum. */
  lemma {:induction false} SumScale(n: int, f: int -> real, c: real, g: int -> real)
    requires forall i | 0 <= i < n :: g(i) == c * f(i)
    ensures Sum(n, g) == c * Sum(n, f)
    decreases n
  {
    if n > 0 {
      SumScale(n - 1, f, c, g);
    }
  }

  /** A sum over a + b terms is the sum of the first a terms plus the sum of the b terms after them. */
  lemma {:induction false} SumSplit(a: int, b: int, f: int -> real, g: int -> real)
    requires a >= 0 && b >= 0
    requires forall m | 0 <= m < b :: g(m) == f(a + m)
    ensures Sum(a + b, f) == Sum(a, f) + Sum(b, g)
    decreases b
  {
    if b > 0 {
      SumSplit(a, b - 1, f, g);
    }
  }

  /** The terms of f from position a on. */
  function Shifted(f: int -> real, a: int): int -> real {
    m => f(a + m)
  }

  /** A sum over c blocks of count terms is the sum of the blocks' own sums. */
  lemma {:induction false} SumBlocks(c: int, count: int, f: int -> real, blocks: int -> real)
    requires c >= 0 && count >= 0
    requires forall j | 0 <= j < c :: blocks(j) == Sum(count, Shifted(f, j * count))
    ensures Sum(c * count, f) == Sum(c, blocks)
    decreases c
  {
    if c > 0 {
      SumBlocks(c - 1, count, f, blocks);
      assert c * count == (c - 1) * count + count;
      assert (c - 1) * count >= 0;
      SumSplit((c - 1) * count, count, f, Shifted(f, (c - 1) * count));
    }
  }
}
