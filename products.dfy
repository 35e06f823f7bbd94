/**
 * Tensor::matmul: a product of the left operand's rows with a matrix held
 * in the height and channel axes of the right operand, which every sample,
 * frame and column of the left operand shares.
 */
module Products {

  import opened Shapes
  import opened Tensors
  import opened Sums

  /** The left operand's leading four axes, the right operand's channels. */
  function ProductShape(a: Shape, b: Shape): Shape {
    Shape(a.d0, a.d1, a.d2, a.d3, b.d4)
  }

  /**
   * Every read of a product summing `n` columns lands in the operands'
   * buffers: the left operand is read up to channel n-1 of its last row,
   * the right operand up to height n-1 of its first sample, frame and column.
   */
  predicate Multipliable(a: Tensor, b: Tensor, n: int) {
    a.Valid() && b.Valid() && n >= 1 &&
    a.shape.Offset(a.shape.Last().With(4, n - 1)) < |a.data| &&
    b.shape.Offset(Index(0, 0, 0, n - 1, b.shape.d4 - 1)) < |b.data|
  }

  /** The two cells multiplied for output cell `o` and column `k`. */
  function LeftRead(o: Index, k: int): Index {
    o.With(4, k)
  }

  function RightRead(o: Index, k: int): Index {
    Index(0, 0, 0, k, o.i4)
  }

  /** The terms of the dot product for output cell `o` (zero where a read would leave a buffer). */
  function Column(a: Tensor, b: Tensor, o: Index): int -> real {
    k => if a.Readable(LeftRead(o, k)) && b.Readable(RightRead(o, k)) then a.Get(LeftRead(o, k)) * b.Get(RightRead(o, k)) else 0.0
  }

  /** Column k of a product of an output cell reads inside both buffers. */
  lemma ProductReads(a: Tensor, b: Tensor, n: int, o: Index, k: int)
    requires Multipliable(a, b, n) && ProductShape(a.shape, b.shape).Contains(o) && 0 <= k < n
    ensures a.Readable(LeftRead(o, k)) && b.Readable(RightRead(o, k))
    ensures Column(a, b, o)(k) == a.Get(LeftRead(o, k)) * b.Get(RightRead(o, k))
  {
    var last := a.shape.Last().With(4, n - 1);
    assert last == Index(a.shape.d0 - 1, a.shape.d1 - 1, a.shape.d2 - 1, a.shape.d3 - 1, n - 1);
    assert LeftRead(o, k) == Index(o.i0, o.i1, o.i2, o.i3, k);
    OffsetMonotone(a.shape, LeftRead(o, k), last);
    OffsetMonotone(b.shape, RightRead(o, k), Index(0, 0, 0, n - 1, b.shape.d4 - 1));
    assert a.Readable(LeftRead(o, k));
    assert b.Readable(RightRead(o, k));
  }

  /** The product summing the first `n` columns of the left operand against the first `n` rows of the right one. */
  function Product(a: Tensor, b: Tensor, n: int): (r: Tensor)
    requires Multipliable(a, b, n)
    ensures r.Valid() && r.shape == ProductShape(a.shape, b.shape)
  {
    var s := ProductShape(a.shape, b.shape);
    Build(s, (o: Index) requires s.Contains(o) => Sum(n, Column(a, b, o)))
  }

  /** The inner loop of matmul: the dot product of one output cell, column by column. */
  method DotLoop(a: Tensor, b: Tensor, n: int, o: Index) returns (value: real)
    requires Multipliable(a, b, n) && ProductShape(a.shape, b.shape).Contains(o)
    ensures value == Sum(n, Column(a, b, o))
  {
    value := 0.0;
    var k := 0;
    while k < n
      invariant 0 <= k <= n
      invariant value == Sum(k, Column(a, b, o))
    {
      ProductReads(a, b, n, o, k);
      value := value + a.Get(LeftRead(o, k)) * b.Get(RightRead(o, k));
      k := k + 1;
    }
  }

  /**
   * Tensor::matmul with its column count passed in: one pass over the
   * output in the order of foreach_assign, each cell the dot product
   * computed by the inner loop.
   */
  method ProductLoop(a: Tensor, b: Tensor, n: int) returns (r: Tensor)
    requires Multipliable(a, b, n)
    ensures r == Product(a, b, n)
  {
    var s := ProductShape(a.shape, b.shape);
    var buffer := new real[s.Size()];
    var j := 0;
    while j < buffer.Length
      invariant 0 <= j <= buffer.Length
      invariant forall i | 0 <= i < j :: buffer[i] == Sum(n, Column(a, b, s.Decode(i)))
    {
      var o := s.Decode(j);
      var value := DotLoop(a, b, n, o);
      buffer[j] := value;
      j := j + 1;
    }
    r := Tensor(s, buffer[..]);
    forall o | s.Contains(o)
      ensures r.Get(o) == Product(a, b, n).Get(o)
    {
      DecodeOffset(s, o);
    }
    Ext(r, Product(a, b, n));
  }

  /** matmul as written: the column count is taken from the height axis. */
  method MatMulAsWritten(a: Tensor, b: Tensor) returns (r: Tensor)
    requires Multipliable(a, b, a.shape.d3)
    ensures r == Product(a, b, a.shape.d3)
  {
    r := ProductLoop(a, b, a.shape.d3);
  }

  /** matmul as intended: the column count is the left operand's channel count. */
  method MatMul(a: Tensor, b: Tensor) returns (r: Tensor)
    requires Multipliable(a, b, a.shape.d4)
    ensures r == Product(a, b, a.shape.d4)
  {
    r := ProductLoop(a, b, a.shape.d4);
  }

  /** Every cell of a product of two tensors of ones counts the columns summed. */
  lemma ProductOfOnes(sa: Shape, sb: Shape, n: int, o: Index)
    requires sa.Valid() && sb.Valid() && Multipliable(Ones(sa), Ones(sb), n)
    requires ProductShape(sa, sb).Contains(o)
    ensures Product(Ones(sa), Ones(sb), n).Get(o) == n as real
  {
    var a, b := Ones(sa), Ones(sb);
    forall k | 0 <= k < n
      ensures Column(a, b, o)(k) == 1.0
    {
      ProductReads(a, b, n, o, k);
    }
    SumConstant(n, Column(a, b, o), 1.0);
  }

  /**
   * The column count of matmul as written is the height of the left
   * operand: for tensors of ones each output cell counts d3 where the
   * product of the rows with the matrix counts d4, so the two differ
   * whenever the left operand is not square in its last two axes.
   */
  lemma MatMulCountsHeight(sa: Shape, sb: Shape, o: Index)
    requires sa.Valid() && sb.Valid()
    requires Multipliable(Ones(sa), Ones(sb), sa.d3) && Multipliable(Ones(sa), Ones(sb), sa.d4)
    requires ProductShape(sa, sb).Contains(o)
    ensures Product(Ones(sa), Ones(sb), sa.d3).Get(o) == sa.d3 as real
    ensures Product(Ones(sa), Ones(sb), sa.d4).Get(o) == sa.d4 as real
  {
    ProductOfOnes(sa, sb, sa.d3, o);
    ProductOfOnes(sa, sb, sa.d4, o);
  }

  /** The identity matrix is a right unit of the product. */
  lemma MatMulEye(a: Tensor)
    requires a.Valid()
    ensures Multipliable(a, Eye(a.shape.d4), a.shape.d4)
    ensures Product(a, Eye(a.shape.d4), a.shape.d4) == a
  {
    var n := a.shape.d4;
    var e := Eye(n);
    assert a.shape.Last().With(4, n - 1) == a.shape.Last();
    assert e.shape.Contains(Index(0, 0, 0, n - 1, n - 1));
    var r := Product(a, e, n);
    assert r.shape == a.shape;
    forall o | a.shape.Contains(o)
      ensures r.Get(o) == a.Get(o)
    {
      var f := Column(a, e, o);
      forall k | 0 <= k < n && k != o.i4
        ensures f(k) == 0.0
      {
        ProductReads(a, e, n, o, k);
        assert e.shape.Contains(RightRead(o, k));
      }
      ProductReads(a, e, n, o, o.i4);
      assert e.shape.Contains(RightRead(o, o.i4));
      assert LeftRead(o, o.i4) == o;
      SumSingle(n, f, o.i4);
    }
    Ext(r, a);
  }
}
