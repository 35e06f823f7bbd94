/**
 * Rank-5 shapes and their row-major linearisation.
 *
 * A tensor has five axes, in this order: sample, frame, width (column),
 * height (row) and channel. A buffer cell is addressed by a subscript
 * (i0, i1, i2, i3, i4) that is linearised row-major, the channel axis
 * having stride 1. The shape descriptor itself lives in a header that is
 * not part of this model; its size and sub2ind are modelled here as the
 * product of the dimensions and the row-major formula.
 */
module Shapes {

  import Arith

  /** A subscript (i0, i1, i2, i3, i4). Entries may be out of range: the engine never checks them. */
  datatype Index = Index(i0: int, i1: int, i2: int, i3: int, i4: int) {

    function Get(axis: int): int
      requires 0 <= axis < 5
    {
      match axis
      case 0 => i0
      case 1 => i1
      case 2 => i2
      case 3 => i3
      case _ => i4
    }

    /** The subscript with entry `axis` replaced by `v`. */
    function With(axis: int, v: int): (r: Index)
      requires 0 <= axis < 5
      ensures r.Get(axis) == v
      ensures forall a | 0 <= a < 5 && a != axis :: r.Get(a) == Get(a)
    {
      match axis
      case 0 => this.(i0 := v)
      case 1 => this.(i1 := v)
      case 2 => this.(i2 := v)
      case 3 => this.(i3 := v)
      case _ => this.(i4 := v)
    }

    predicate NonNegative() {
      i0 >= 0 && i1 >= 0 && i2 >= 0 && i3 >= 0 && i4 >= 0
    }

    /** Entry-wise <=. */
    predicate Below(other: Index) {
      i0 <= other.i0 && i1 <= other.i1 && i2 <= other.i2 && i3 <= other.i3 && i4 <= other.i4
    }

    /** Lexicographic <, the order in which five nested loops visit subscripts. */
    predicate LexLess(other: Index) {
      i0 < other.i0 ||
      (i0 == other.i0 && (i1 < other.i1 ||
      (i1 == other.i1 && (i2 < other.i2 ||
      (i2 == other.i2 && (i3 < other.i3 ||
      (i3 == other.i3 && i4 < other.i4)))))))
    }
  }

  /** The five dimensions (sample, frame, width, height, channel). */
  datatype Shape = Shape(d0: int, d1: int, d2: int, d3: int, d4: int) {

    /** Every dimension is positive. */
    predicate Valid() {
      d0 >= 1 && d1 >= 1 && d2 >= 1 && d3 >= 1 && d4 >= 1
    }

    function Dim(axis: int): int
      requires 0 <= axis < 5
    {
      match axis
      case 0 => d0
      case 1 => d1
      case 2 => d2
      case 3 => d3
      case _ => d4
    }

    /** The shape with dimension `axis` set to `v` (Shape::set). */
    function With(axis: int, v: int): (r: Shape)
      requires 0 <= axis < 5
      ensures r.Dim(axis) == v
      ensures forall a | 0 <= a < 5 && a != axis :: r.Dim(a) == Dim(a)
    {
      match axis
      case 0 => this.(d0 := v)
      case 1 => this.(d1 := v)
      case 2 => this.(d2 := v)
      case 3 => this.(d3 := v)
      case _ => this.(d4 := v)
    }

    /** Number of cells (Shape::size). */
    function Size(): (n: int)
      ensures Valid() ==> n >= 1
    {
      assert Valid() ==> d0 * d1 * d2 * d3 * d4 >= 1 by {
        if Valid() {
          Arith.PositiveProduct(d0, d1);
          Arith.PositiveProduct(d0 * d1, d2);
          Arith.PositiveProduct(d0 * d1 * d2, d3);
          Arith.PositiveProduct(d0 * d1 * d2 * d3, d4);
        }
      }
      d0 * d1 * d2 * d3 * d4
    }

    /** Distance in the buffer between neighbours along `axis`. */
    function Stride(axis: int): int
      requires 0 <= axis < 5
    {
      match axis
      case 0 => d1 * d2 * d3 * d4
      case 1 => d2 * d3 * d4
      case 2 => d3 * d4
      case 3 => d4
      case _ => 1
    }

    predicate Contains(ix: Index) {
      0 <= ix.i0 < d0 && 0 <= ix.i1 < d1 && 0 <= ix.i2 < d2 && 0 <= ix.i3 < d3 && 0 <= ix.i4 < d4
    }

    /** The subscript of the last cell. */
    function Last(): Index {
      Index(d0 - 1, d1 - 1, d2 - 1, d3 - 1, d4 - 1)
    }

    /** Row-major linear index (Shape::sub2ind), defined for any subscript. */
    function Offset(ix: Index): (k: int)
      ensures Valid() && Contains(ix) ==> 0 <= k < Size()
    {
      var k := (((ix.i0 * d1 + ix.i1) * d2 + ix.i2) * d3 + ix.i3) * d4 + ix.i4;
      assert Valid() && Contains(ix) ==> 0 <= k < Size() by {
        if Valid() && Contains(ix) {
          Arith.DigitBound(ix.i0, d0, ix.i1, d1);
          Arith.DigitBound(ix.i0 * d1 + ix.i1, d0 * d1, ix.i2, d2);
          Arith.DigitBound((ix.i0 * d1 + ix.i1) * d2 + ix.i2, d0 * d1 * d2, ix.i3, d3);
          Arith.DigitBound(((ix.i0 * d1 + ix.i1) * d2 + ix.i2) * d3 + ix.i3, d0 * d1 * d2 * d3, ix.i4, d4);
        }
      }
      k
    }

    /** The subscript whose linear index is `k`: the inverse of Offset on this shape. */
    function Decode(k: int): (ix: Index)
      requires Valid() && 0 <= k < Size()
      ensures Contains(ix) && Offset(ix) == k
    {
      var r3, i4 := k / d4, k % d4;
      var r2, i3 := r3 / d3, r3 % d3;
      var r1, i2 := r2 / d2, r2 % d2;
      var i0, i1 := r1 / d1, r1 % d1;
      var ix := Index(i0, i1, i2, i3, i4);
      assert Contains(ix) && Offset(ix) == k by {
        Arith.QuotientBound(k, d0 * d1 * d2 * d3, d4);
        Arith.QuotientBound(r3, d0 * d1 * d2, d3);
        Arith.QuotientBound(r2, d0 * d1, d2);
        Arith.QuotientBound(r1, d0, d1);
        Arith.DivMod(k, d4);
        Arith.DivMod(r3, d3);
        Arith.DivMod(r2, d2);
        Arith.DivMod(r1, d1);
      }
      ix
    }
  }

  /** Decode undoes Offset: the linearisation is one-to-one on the cells of a shape. */
  lemma DecodeOffset(s: Shape, ix: Index)
    requires s.Valid() && s.Contains(ix)
    ensures s.Decode(s.Offset(ix)) == ix
  {
    var k1 := ix.i0 * s.d1 + ix.i1;
    var k2 := k1 * s.d2 + ix.i2;
    var k3 := k2 * s.d3 + ix.i3;
    Arith.DigitUnique(k3, ix.i4, s.d4);
    Arith.DigitUnique(k2, ix.i3, s.d3);
    Arith.DigitUnique(k1, ix.i2, s.d2);
    Arith.DigitUnique(ix.i0, ix.i1, s.d1);
  }

  /** Two cells with the same linear index are the same cell. */
  lemma OffsetInjective(s: Shape, ix: Index, iy: Index)
    requires s.Valid() && s.Contains(ix) && s.Contains(iy)
    requires s.Offset(ix) == s.Offset(iy)
    ensures ix == iy
  {
    DecodeOffset(s, ix);
    DecodeOffset(s, iy);
  }

  /**
   * The five nested foreach loops visit subscripts in lexicographic order;
   * the row-major linear index grows along that order, so one loop over the
   * linear index 0, 1, ..., Size()-1 visits the cells in the same order.
   */
  lemma {:induction false} OffsetLexOrder(s: Shape, ix: Index, iy: Index)
    requires s.Valid() && s.Contains(ix) && s.Contains(iy)
    requires ix.LexLess(iy)
    ensures s.Offset(ix) < s.Offset(iy)
  {
    var a1, b1 := ix.i0 * s.d1 + ix.i1, iy.i0 * s.d1 + iy.i1;
    var a2, b2 := a1 * s.d2 + ix.i2, b1 * s.d2 + iy.i2;
    var a3, b3 := a2 * s.d3 + ix.i3, b2 * s.d3 + iy.i3;
    assert s.Offset(ix) == a3 * s.d4 + ix.i4 && s.Offset(iy) == b3 * s.d4 + iy.i4;
    if ix.i0 != iy.i0 || ix.i1 != iy.i1 {
      Arith.DigitLexLess(ix.i0, ix.i1, iy.i0, iy.i1, s.d1);
      Arith.DigitLexLess(a1, ix.i2, b1, iy.i2, s.d2);
      Arith.DigitLexLess(a2, ix.i3, b2, iy.i3, s.d3);
      Arith.DigitLexLess(a3, ix.i4, b3, iy.i4, s.d4);
    } else if ix.i2 != iy.i2 {
      Arith.DigitLexLess(a1, ix.i2, b1, iy.i2, s.d2);
      Arith.DigitLexLess(a2, ix.i3, b2, iy.i3, s.d3);
      Arith.DigitLexLess(a3, ix.i4, b3, iy.i4, s.d4);
    } else if ix.i3 != iy.i3 {
      Arith.DigitLexLess(a2, ix.i3, b2, iy.i3, s.d3);
      Arith.DigitLexLess(a3, ix.i4, b3, iy.i4, s.d4);
    } else {
      Arith.DigitLexLess(a3, ix.i4, b3, iy.i4, s.d4);
    }
  }

  /** For non-negative subscripts the linear index grows with every entry. */
  lemma OffsetMonotone(s: Shape, ix: Index, iy: Index)
    requires s.Valid() && ix.NonNegative() && ix.Below(iy)
    ensures 0 <= s.Offset(ix) <= s.Offset(iy)
  {
    Arith.DigitMonotone(ix.i0, ix.i1, iy.i0, iy.i1, s.d1);
    Arith.DigitMonotone(ix.i0 * s.d1 + ix.i1, ix.i2, iy.i0 * s.d1 + iy.i1, iy.i2, s.d2);
    Arith.DigitMonotone((ix.i0 * s.d1 + ix.i1) * s.d2 + ix.i2, ix.i3,
                        (iy.i0 * s.d1 + iy.i1) * s.d2 + iy.i2, iy.i3, s.d3);
    Arith.DigitMonotone(((ix.i0 * s.d1 + ix.i1) * s.d2 + ix.i2) * s.d3 + ix.i3, ix.i4,
                        ((iy.i0 * s.d1 + iy.i1) * s.d2 + iy.i2) * s.d3 + iy.i3, iy.i4, s.d4);
  }

  /** Strides of a valid shape are positive. */
  lemma StridesPositive(s: Shape)
    requires s.Valid()
    ensures forall a | 0 <= a < 5 :: s.Stride(a) >= 1
  {
    Arith.PositiveProduct(s.d3, s.d4);
    Arith.PositiveProduct(s.d2 * s.d3, s.d4);
    Arith.PositiveProduct(s.d2, s.d3);
    Arith.PositiveProduct(s.d1 * s.d2 * s.d3, s.d4);
    Arith.PositiveProduct(s.d1 * s.d2, s.d3);
    Arith.PositiveProduct(s.d1, s.d2);
  }

  /**
   * The linear index grows with every entry, for any subscripts, negative
   * entries included (the engine computes it for any subscript).
   */
  lemma OffsetBelow(s: Shape, ix: Index, iy: Index)
    requires s.Valid() && ix.Below(iy)
    ensures s.Offset(ix) <= s.Offset(iy)
  {
    StridesPositive(s);
    OffsetLinear(s, ix);
    OffsetLinear(s, iy);
    Arith.MulLe(ix.i0, iy.i0, s.Stride(0));
    Arith.MulLe(ix.i1, iy.i1, s.Stride(1));
    Arith.MulLe(ix.i2, iy.i2, s.Stride(2));
    Arith.MulLe(ix.i3, iy.i3, s.Stride(3));
  }

  /** Replacing one entry of a contained subscript by a value in range keeps it contained. */
  lemma WithInside(s: Shape, ix: Index, axis: int, v: int)
    requires 0 <= axis < 5 && s.Contains(ix) && 0 <= v < s.Dim(axis)
    ensures s.Contains(ix.With(axis, v))
  {
  }

  /** The linear index is the stride-weighted sum of the subscript's entries. */
  lemma OffsetLinear(s: Shape, ix: Index)
    ensures s.Offset(ix) == ix.i0 * s.Stride(0) + ix.i1 * s.Stride(1) + ix.i2 * s.Stride(2)
                            + ix.i3 * s.Stride(3) + ix.i4 * s.Stride(4)
  {
    calc {
      s.Offset(ix);
      (((ix.i0 * s.d1 + ix.i1) * s.d2 + ix.i2) * s.d3 + ix.i3) * s.d4 + ix.i4;
      { Arith.Distrib3(ix.i0 * s.d1 + ix.i1, s.d2, ix.i2, s.d3, ix.i3, s.d4); }
      (ix.i0 * s.d1 + ix.i1) * (s.d2 * s.d3 * s.d4) + ix.i2 * (s.d3 * s.d4) + ix.i3 * s.d4 + ix.i4;
      { Arith.Distrib1(ix.i0, s.d1, ix.i1, s.d2 * s.d3 * s.d4); }
      ix.i0 * (s.d1 * (s.d2 * s.d3 * s.d4)) + ix.i1 * (s.d2 * s.d3 * s.d4) + ix.i2 * (s.d3 * s.d4)
        + ix.i3 * s.d4 + ix.i4;
      { assert s.d1 * (s.d2 * s.d3 * s.d4) == s.d1 * s.d2 * s.d3 * s.d4; }
      ix.i0 * s.Stride(0) + ix.i1 * s.Stride(1) + ix.i2 * s.Stride(2) + ix.i3 * s.Stride(3) + ix.i4 * s.Stride(4);
    }
  }

  /** Moving a subscript along one axis moves its linear index by a multiple of that axis's stride. */
  lemma OffsetShift(s: Shape, ix: Index, axis: int, v: int)
    requires 0 <= axis < 5
    ensures s.Offset(ix.With(axis, v)) == s.Offset(ix) + (v - ix.Get(axis)) * s.Stride(axis)
  {
    OffsetLinear(s, ix);
    OffsetLinear(s, ix.With(axis, v));
    Arith.MulSub(v, ix.Get(axis), s.Stride(axis));
  }

  /** The size of a valid shape is its sample count times the sample stride. */
  lemma SizeBySamples(s: Shape)
    ensures s.Size() == s.d0 * s.Stride(0)
  {
    assert s.d0 * s.d1 * s.d2 * s.d3 * s.d4 == s.d0 * (s.d1 * s.d2 * s.d3 * s.d4);
  }
}

/** Small facts of integer arithmetic used by the index calculations. */
module Arith {

  lemma MulLe(a: int, b: int, c: int)
    requires a <= b && 0 <= c
    ensures a * c <= b * c
  {
    assert b * c - a * c == (b - a) * c;
  }

  lemma PositiveProduct(a: int, b: int)
    requires a >= 1 && b >= 1
    ensures a * b >= 1 && a * b >= a && a * b >= b
  {
    MulLe(1, b, a);
    MulLe(1, a, b);
  }

  lemma MulSub(a: int, b: int, c: int)
    ensures a * c == b * c + (a - b) * c
  {
  }

  lemma Distrib1(a: int, b: int, c: int, d: int)
    ensures (a * b + c) * d == a * (b * d) + c * d
  {
  }

  lemma Distrib3(x: int, b: int, y: int, c: int, z: int, d: int)
    ensures ((x * b + y) * c + z) * d == x * (b * c * d) + y * (c * d) + z * d
  {
    assert ((x * b + y) * c + z) * d == (x * b + y) * c * d + z * d;
    assert (x * b + y) * c * d == x * b * c * d + y * c * d;
  }

  /** One digit of a mixed-radix number stays in range. */
  lemma DigitBound(q: int, bound: int, r: int, d: int)
    requires 0 <= q < bound && 0 <= r < d
    ensures 0 <= q * d + r < bound * d
  {
    MulLe(q, bound - 1, d);
    MulLe(0, q, d);
  }

  /** Integer division by `d` rounds down: the quotient's multiple lies within `d` below the number. */
  lemma DivBounds(a: int, d: int)
    requires d >= 1
    ensures (a / d) * d <= a < (a / d + 1) * d
  {
    assert (a / d + 1) * d == (a / d) * d + d;
  }

  /** The quotient by `d` of a number below bound*d is below bound. */
  lemma QuotientBound(k: int, bound: int, d: int)
    requires d >= 1 && 0 <= k < bound * d
    ensures 0 <= k / d < bound
  {
    if k / d >= bound {
      MulLe(bound, k / d, d);
    }
  }

  lemma DivMod(k: int, d: int)
    requires d >= 1
    ensures k == (k / d) * d + k % d && 0 <= k % d < d
  {
  }

  /** A digit and the rest of a mixed-radix number are recovered by div and mod. */
  lemma DigitUnique(q: int, r: int, d: int)
    requires 0 <= r < d
    ensures (q * d + r) / d == q && (q * d + r) % d == r
  {
    var k := q * d + r;
    DivMod(k, d);
    var q', r' := k / d, k % d;
    if q' < q {
      MulLe(q' + 1, q, d);
    } else if q' > q {
      MulLe(q + 1, q', d);
    }
  }

  /** A number with last digit r that is a multiple of d has r == 0 and the same leading digit. */
  lemma DigitMultiple(q: int, r: int, q': int, d: int)
    requires 0 <= r < d && q * d + r == q' * d
    ensures q == q' && r == 0
  {
    DigitUnique(q, r, d);
    DigitUnique(q', 0, d);
  }

  lemma DigitLess(q: int, r: int, q': int, r': int, d: int)
    requires q < q' && 0 <= r < d && 0 <= r' < d
    ensures q * d + r < q' * d + r'
  {
    MulLe(q + 1, q', d);
  }

  /** Appending a digit keeps a lexicographic order between the digit strings. */
  lemma DigitLexLess(q: int, r: int, q': int, r': int, d: int)
    requires 0 <= r < d && 0 <= r' < d
    requires q < q' || (q == q' && r < r')
    ensures q * d + r < q' * d + r'
  {
    if q < q' {
      DigitLess(q, r, q', r', d);
    }
  }

  lemma DigitMonotone(q: int, r: int, q': int, r': int, d: int)
    requires 0 <= q <= q' && 0 <= r <= r' && d >= 0
    ensures 0 <= q * d + r <= q' * d + r'
  {
    MulLe(q, q', d);
    MulLe(0, q, d);
  }
}
