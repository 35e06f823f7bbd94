/**
 * Tensor::kronecker: every cell of the left operand scales a whole copy of
 * the right operand, placed as one block of the output.
 */
module Kronecker {

  import opened Shapes
  import opened Tensors
  import Arith

  /** Each axis of the output is the product of the operands' lengths along it. */
  function KronShape(a: Shape, b: Shape): Shape {
    Shape(a.d0 * b.d0, a.d1 * b.d1, a.d2 * b.d2, a.d3 * b.d3, a.d4 * b.d4)
  }

  lemma KronShapeValid(a: Shape, b: Shape)
    requires a.Valid() && b.Valid()
    ensures KronShape(a, b).Valid()
  {
    Arith.PositiveProduct(a.d0, b.d0);
    Arith.PositiveProduct(a.d1, b.d1);
    Arith.PositiveProduct(a.d2, b.d2);
    Arith.PositiveProduct(a.d3, b.d3);
    Arith.PositiveProduct(a.d4, b.d4);
  }

  /** The output subscript of right-operand cell `ib` within the block of left-operand cell `ia`. */
  function Join(ia: Index, ib: Index, b: Shape): Index {
    Index(ia.i0 * b.d0 + ib.i0, ia.i1 * b.d1 + ib.i1, ia.i2 * b.d2 + ib.i2,
          ia.i3 * b.d3 + ib.i3, ia.i4 * b.d4 + ib.i4)
  }

  /** The block (left-operand cell) an output subscript lies in. */
  function Block(o: Index, b: Shape): Index
    requires b.Valid()
  {
    Index(o.i0 / b.d0, o.i1 / b.d1, o.i2 / b.d2, o.i3 / b.d3, o.i4 / b.d4)
  }

  /** The position (right-operand cell) of an output subscript inside its block. */
  function Within(o: Index, b: Shape): Index
    requires b.Valid()
  {
    Index(o.i0 % b.d0, o.i1 % b.d1, o.i2 % b.d2, o.i3 % b.d3, o.i4 % b.d4)
  }

  /** Joining a block and a position and splitting the result gives them back. */
  lemma SplitJoin(a: Shape, b: Shape, ia: Index, ib: Index)
    requires a.Valid() && b.Valid() && a.Contains(ia) && b.Contains(ib)
    ensures KronShape(a, b).Contains(Join(ia, ib, b))
    ensures Block(Join(ia, ib, b), b) == ia && Within(Join(ia, ib, b), b) == ib
  {
    Arith.DigitBound(ia.i0, a.d0, ib.i0, b.d0);
    Arith.DigitBound(ia.i1, a.d1, ib.i1, b.d1);
    Arith.DigitBound(ia.i2, a.d2, ib.i2, b.d2);
    Arith.DigitBound(ia.i3, a.d3, ib.i3, b.d3);
    Arith.DigitBound(ia.i4, a.d4, ib.i4, b.d4);
    Arith.DigitUnique(ia.i0, ib.i0, b.d0);
    Arith.DigitUnique(ia.i1, ib.i1, b.d1);
    Arith.DigitUnique(ia.i2, ib.i2, b.d2);
    Arith.DigitUnique(ia.i3, ib.i3, b.d3);
    Arith.DigitUnique(ia.i4, ib.i4, b.d4);
  }

  /** Every output subscript is the join of its block and its position, both inside their shapes. */
  lemma JoinSplit(a: Shape, b: Shape, o: Index)
    requires a.Valid() && b.Valid() && KronShape(a, b).Contains(o)
    ensures a.Contains(Block(o, b)) && b.Contains(Within(o, b))
    ensures Join(Block(o, b), Within(o, b), b) == o
  {
    Arith.QuotientBound(o.i0, a.d0, b.d0);
    Arith.QuotientBound(o.i1, a.d1, b.d1);
    Arith.QuotientBound(o.i2, a.d2, b.d2);
    Arith.QuotientBound(o.i3, a.d3, b.d3);
    Arith.QuotientBound(o.i4, a.d4, b.d4);
    Arith.DivMod(o.i0, b.d0);
    Arith.DivMod(o.i1, b.d1);
    Arith.DivMod(o.i2, b.d2);
    Arith.DivMod(o.i3, b.d3);
    Arith.DivMod(o.i4, b.d4);
  }

  /** The Kronecker product: output cell `o` is a(block of o) * b(position of o within it). */
  function Kron(a: Tensor, b: Tensor): (r: Tensor)
    requires a.Valid() && b.Valid()
    ensures r.Valid() && r.shape == KronShape(a.shape, b.shape)
  {
    var s := KronShape(a.shape, b.shape);
    KronShapeValid(a.shape, b.shape);
    assert forall o | s.Contains(o) :: a.shape.Contains(Block(o, b.shape)) && b.shape.Contains(Within(o, b.shape)) by {
      forall o | s.Contains(o)
        ensures a.shape.Contains(Block(o, b.shape)) && b.shape.Contains(Within(o, b.shape))
      {
        JoinSplit(a.shape, b.shape, o);
      }
    }
    Build(s, Scaled(a, b))
  }

  /** The cell function of the product: a(block of o) * b(position of o within it). */
  function Scaled(a: Tensor, b: Tensor): Index --> real
    requires a.Valid() && b.Valid()
  {
    (o: Index) requires a.shape.Contains(Block(o, b.shape)) && b.shape.Contains(Within(o, b.shape)) =>
      Mul(a.Get(Block(o, b.shape)), b.Get(Within(o, b.shape)))
  }

  /** Cell `o` of the product, read through its block and position. */
  lemma KronCell(a: Tensor, b: Tensor, o: Index)
    requires a.Valid() && b.Valid() && KronShape(a.shape, b.shape).Contains(o)
    ensures a.shape.Contains(Block(o, b.shape)) && b.shape.Contains(Within(o, b.shape))
    ensures Kron(a, b).Get(o) == Mul(a.Get(Block(o, b.shape)), b.Get(Within(o, b.shape)))
  {
    KronShapeValid(a.shape, b.shape);
    JoinSplit(a.shape, b.shape, o);
    var s := KronShape(a.shape, b.shape);
    assert Kron(a, b) == Build(s, Scaled(a, b));
  }

  /** Block `ia` of the product is b scaled by a(ia): position `ib` of it holds a(ia) * b(ib). */
  lemma KronBlock(a: Tensor, b: Tensor, ia: Index, ib: Index)
    requires a.Valid() && b.Valid() && a.shape.Contains(ia) && b.shape.Contains(ib)
    ensures KronShape(a.shape, b.shape).Contains(Join(ia, ib, b.shape))
    ensures Kron(a, b).Get(Join(ia, ib, b.shape)) == Mul(a.Get(ia), b.Get(ib))
  {
    SplitJoin(a.shape, b.shape, ia, ib);
    KronCell(a, b, Join(ia, ib, b.shape));
  }

  /** Output cell `o` has been written once the pass reached left cell `i` and right cell `j`. */
  predicate Written(a: Tensor, b: Tensor, o: Index, i: int, j: int)
    requires a.Valid() && b.Valid()
  {
    var p, q := a.shape.Offset(Block(o, b.shape)), b.shape.Offset(Within(o, b.shape));
    p < i || (p == i && q < j)
  }

  /** What the output buffer holds at `o` at that point: the product once written, zero before. */
  function Partial(a: Tensor, b: Tensor, o: Index, i: int, j: int): real
    requires a.Valid() && b.Valid() && KronShape(a.shape, b.shape).Contains(o)
  {
    JoinSplit(a.shape, b.shape, o);
    if Written(a, b, o, i, j) then Mul(a.Get(Block(o, b.shape)), b.Get(Within(o, b.shape))) else 0.0
  }

  /** Writing (i, j) turns exactly the output cell of block i, position j from unwritten to written. */
  lemma WriteStep(a: Tensor, b: Tensor, i: int, j: int, o: Index)
    requires a.Valid() && b.Valid() && 0 <= i < a.shape.Size() && 0 <= j < b.shape.Size()
    requires KronShape(a.shape, b.shape).Contains(o)
    requires o != Join(a.shape.Decode(i), b.shape.Decode(j), b.shape)
    ensures Partial(a, b, o, i, j + 1) == Partial(a, b, o, i, j)
  {
    JoinSplit(a.shape, b.shape, o);
    var p, q := a.shape.Offset(Block(o, b.shape)), b.shape.Offset(Within(o, b.shape));
    if p == i && q == j {
      DecodeOffset(a.shape, Block(o, b.shape));
      DecodeOffset(b.shape, Within(o, b.shape));
      assert false;
    }
  }

  /** The inner pass over the right operand for left cell i. */
  method BlockPass(a: Tensor, b: Tensor, out: array<real>, i: int)
    requires a.Valid() && b.Valid() && 0 <= i < a.shape.Size()
    requires out.Length == KronShape(a.shape, b.shape).Size()
    requires forall o | KronShape(a.shape, b.shape).Contains(o) ::
      out[KronShape(a.shape, b.shape).Offset(o)] == Partial(a, b, o, i, 0)
    modifies out
    ensures forall o | KronShape(a.shape, b.shape).Contains(o) ::
      out[KronShape(a.shape, b.shape).Offset(o)] == Partial(a, b, o, i + 1, 0)
  {
    var s := KronShape(a.shape, b.shape);
    KronShapeValid(a.shape, b.shape);
    var ia := a.shape.Decode(i);
    var x := a.Get(ia);
    var j := 0;
    while j < b.shape.Size()
      invariant 0 <= j <= b.shape.Size()
      invariant forall o | s.Contains(o) :: out[s.Offset(o)] == Partial(a, b, o, i, j)
    {
      var ib := b.shape.Decode(j);
      var target := Join(ia, ib, b.shape);
      SplitJoin(a.shape, b.shape, ia, ib);
      forall o | s.Contains(o) && o != target
        ensures Partial(a, b, o, i, j + 1) == Partial(a, b, o, i, j)
      {
        WriteStep(a, b, i, j, o);
      }
      forall o | s.Contains(o) && s.Offset(o) == s.Offset(target)
        ensures o == target
      {
        OffsetInjective(s, o, target);
      }
      out[s.Offset(target)] := Mul(x, b.Get(ib));
      j := j + 1;
    }
    forall o | s.Contains(o)
      ensures Partial(a, b, o, i, j) == Partial(a, b, o, i + 1, 0)
    {
      JoinSplit(a.shape, b.shape, o);
    }
  }

  /**
   * Tensor::kronecker: a zero tensor of the output shape, then for each cell
   * of the left operand a pass over the right operand storing the products
   * in that cell's block.
   */
  method KroneckerLoop(a: Tensor, b: Tensor) returns (r: Tensor)
    requires a.Valid() && b.Valid()
    ensures r == Kron(a, b)
  {
    var s := KronShape(a.shape, b.shape);
    KronShapeValid(a.shape, b.shape);
    var out := new real[s.Size()](_ => 0.0);
    forall o | s.Contains(o)
      ensures out[s.Offset(o)] == Partial(a, b, o, 0, 0)
    {
      NothingWritten(a, b, o);
    }
    var i := 0;
    while i < a.shape.Size()
      invariant 0 <= i <= a.shape.Size()
      invariant forall o | s.Contains(o) :: out[s.Offset(o)] == Partial(a, b, o, i, 0)
    {
      BlockPass(a, b, out, i);
      i := i + 1;
    }
    r := Tensor(s, out[..]);
    forall o | s.Contains(o)
      ensures r.Get(o) == Kron(a, b).Get(o)
    {
      AllWritten(a, b, o);
    }
    Ext(r, Kron(a, b));
  }

  lemma NothingWritten(a: Tensor, b: Tensor, o: Index)
    requires a.Valid() && b.Valid() && KronShape(a.shape, b.shape).Contains(o)
    ensures Partial(a, b, o, 0, 0) == 0.0
  {
    JoinSplit(a.shape, b.shape, o);
  }

  lemma AllWritten(a: Tensor, b: Tensor, o: Index)
    requires a.Valid() && b.Valid() && KronShape(a.shape, b.shape).Contains(o)
    ensures Partial(a, b, o, a.shape.Size(), 0) == Kron(a, b).Get(o)
  {
    JoinSplit(a.shape, b.shape, o);
    KronCell(a, b, o);
  }

  /** A single cell of one on the right leaves the left operand unchanged. */
  lemma KronUnit(a: Tensor)
    requires a.Valid()
    ensures Kron(a, Ones(Shape(1, 1, 1, 1, 1))) == a
  {
    var u := Ones(Shape(1, 1, 1, 1, 1));
    var r := Kron(a, u);
    var zero := Index(0, 0, 0, 0, 0);
    assert u.shape.Contains(zero);
    forall o | a.shape.Contains(o)
      ensures r.Get(o) == a.Get(o)
    {
      KronBlock(a, u, o, zero);
      assert Join(o, zero, u.shape) == o;
    }
    Ext(r, a);
  }
}
