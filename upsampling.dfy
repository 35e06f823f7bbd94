/**
 * Tensor::__upsampling_ (max_upsampling, min_upsampling) and
 * avg_upsampling: the inverse routing of pooling, spreading each cell of a
 * pooled tensor back over its window of the input.
 */
module Upsampling {

  import opened Shapes
  import opened Tensors
  import opened Elementwise
  import opened Pooling
  import opened Kronecker
  import Arith

  /**
   * Every window of the pooled tensor `t` lies inside `input`: t has at
   * most the input's samples, frames and channels, and width-by-width
   * windows of t's width and height fit in the input's.
   */
  predicate Upsamplable(t: Tensor, input: Tensor, width: int) {
    t.Valid() && input.Valid() && width >= 1 &&
    t.shape.d0 <= input.shape.d0 && t.shape.d1 <= input.shape.d1 && t.shape.d4 <= input.shape.d4 &&
    t.shape.d2 * width <= input.shape.d2 && t.shape.d3 * width <= input.shape.d3
  }

  lemma UpWindowInside(t: Tensor, input: Tensor, width: int, o: Index, k: int, l: int)
    requires Upsamplable(t, input, width) && t.shape.Contains(o) && 0 <= k < width && 0 <= l < width
    ensures input.shape.Contains(Cell(o, width, k, l))
  {
    Arith.DigitBound(o.i2, t.shape.d2, k, width);
    Arith.DigitBound(o.i3, t.shape.d3, l, width);
  }

  /**
   * The window position the scan of output cell `o` has settled on once
   * rows 0 .. k-1 and the first l cells of row k have been compared: the
   * last cell equal to `v` so far, (0, 0) when there is none.
   */
  function Found(t: Tensor, input: Tensor, width: int, o: Index, v: real, k: int, l: int): (p: (int, int))
    requires Upsamplable(t, input, width) && t.shape.Contains(o)
    requires 0 <= k <= width && 0 <= l <= width && (k == width ==> l == 0)
    ensures 0 <= p.0 < width && 0 <= p.1 < width
    decreases k, l
  {
    if k == 0 && l == 0 then (0, 0)
    else if l == 0 then Found(t, input, width, o, v, k - 1, width)
    else
      UpWindowInside(t, input, width, o, k, l - 1);
      if input.Get(Cell(o, width, k, l - 1)) == v then (k, l - 1)
      else Found(t, input, width, o, v, k, l - 1)
  }

  /** The input cell that receives the value of output cell `o`. */
  function Target(t: Tensor, input: Tensor, width: int, o: Index): Index
    requires Upsamplable(t, input, width) && t.shape.Contains(o)
  {
    var p := Found(t, input, width, o, t.Get(o), width, 0);
    Cell(o, width, p.0, p.1)
  }

  /** The cell of `t` whose window holds input cell `ix`. */
  function Owner(ix: Index, width: int): Index
    requires width >= 1
  {
    Index(ix.i0, ix.i1, ix.i2 / width, ix.i3 / width, ix.i4)
  }

  /** A window cell belongs to the output cell the window was taken for. */
  lemma OwnerOfCell(o: Index, width: int, k: int, l: int)
    requires width >= 1 && 0 <= k < width && 0 <= l < width
    ensures Owner(Cell(o, width, k, l), width) == o
  {
    Arith.DigitUnique(o.i2, k, width);
    Arith.DigitUnique(o.i3, l, width);
  }

  /** Whether input cell `ix` is the target of its owner, and the owner lies inside `t`. */
  predicate Routed(t: Tensor, input: Tensor, width: int, ix: Index)
    requires Upsamplable(t, input, width)
  {
    t.shape.Contains(Owner(ix, width)) && Target(t, input, width, Owner(ix, width)) == ix
  }

  /**
   * The upsampled tensor: every cell of t is stored at its target in the
   * input's shape, and every other cell is zero.
   */
  function Upsampled(t: Tensor, input: Tensor, width: int): (r: Tensor)
    requires Upsamplable(t, input, width)
    ensures r.Valid() && r.shape == input.shape
  {
    Build(input.shape, (ix: Index) requires input.shape.Contains(ix) =>
      if Routed(t, input, width, ix) then t.Get(Owner(ix, width)) else 0.0)
  }

  /** The two comparison loops of one cell of `t`. */
  method FindLoop(t: Tensor, input: Tensor, width: int, o: Index) returns (pk: int, pl: int)
    requires Upsamplable(t, input, width) && t.shape.Contains(o)
    ensures (pk, pl) == Found(t, input, width, o, t.Get(o), width, 0)
  {
    var value := t.Get(o);
    pk, pl := 0, 0;
    var k := 0;
    while k < width
      invariant 0 <= k <= width
      invariant (pk, pl) == Found(t, input, width, o, value, k, 0)
    {
      var l := 0;
      while l < width
        invariant 0 <= l <= width
        invariant (pk, pl) == Found(t, input, width, o, value, k, l)
      {
        UpWindowInside(t, input, width, o, k, l);
        if value == input.Get(Cell(o, width, k, l)) {
          pk, pl := k, l;
        }
        l := l + 1;
      }
      k := k + 1;
    }
  }

  /**
   * __upsampling_: a zero tensor of the input's shape, then one pass over
   * `t` storing each cell at the last position of its window whose input
   * cell equals it.
   */
  method UpsamplingLoop(t: Tensor, input: Tensor, width: int) returns (r: Tensor)
    requires Upsamplable(t, input, width)
    ensures r == Upsampled(t, input, width)
  {
    var s := input.shape;
    var out := new real[s.Size()](_ => 0.0);
    var k := 0;
    while k < t.shape.Size()
      invariant 0 <= k <= t.shape.Size()
      invariant forall ix | s.Contains(ix) :: (out[s.Offset(ix)] ==
        if Routed(t, input, width, ix) && t.shape.Offset(Owner(ix, width)) < k then t.Get(Owner(ix, width)) else 0.0)
    {
      var o := t.shape.Decode(k);
      var pk, pl := FindLoop(t, input, width, o);
      var target := Cell(o, width, pk, pl);
      UpWindowInside(t, input, width, o, pk, pl);
      OwnerOfCell(o, width, pk, pl);
      assert Routed(t, input, width, target);
      forall ix | s.Contains(ix) && s.Offset(ix) == s.Offset(target)
        ensures ix == target
      {
        OffsetInjective(s, ix, target);
      }
      forall ix | s.Contains(ix) && Routed(t, input, width, ix) && t.shape.Offset(Owner(ix, width)) == k
        ensures ix == target
      {
        OffsetInjective(t.shape, Owner(ix, width), o);
      }
      out[s.Offset(target)] := t.Get(o);
      k := k + 1;
    }
    r := Tensor(s, out[..]);
    forall ix | s.Contains(ix)
      ensures r.Get(ix) == Upsampled(t, input, width).Get(ix)
    {
    }
    Ext(r, Upsampled(t, input, width));
  }

  /**
   * Each cell of `t` reaches exactly one cell of its window, its target;
   * the rest of the window is zero.
   */
  lemma UpsamplingRoutes(t: Tensor, input: Tensor, width: int, o: Index)
    requires Upsamplable(t, input, width) && t.shape.Contains(o)
    ensures input.shape.Contains(Target(t, input, width, o))
    ensures Upsampled(t, input, width).Get(Target(t, input, width, o)) == t.Get(o)
    ensures forall k, l | 0 <= k < width && 0 <= l < width && Cell(o, width, k, l) != Target(t, input, width, o) ::
      input.shape.Contains(Cell(o, width, k, l)) && Upsampled(t, input, width).Get(Cell(o, width, k, l)) == 0.0
  {
    var p := Found(t, input, width, o, t.Get(o), width, 0);
    UpWindowInside(t, input, width, o, p.0, p.1);
    OwnerOfCell(o, width, p.0, p.1);
    forall k, l | 0 <= k < width && 0 <= l < width && Cell(o, width, k, l) != Target(t, input, width, o)
      ensures input.shape.Contains(Cell(o, width, k, l)) && Upsampled(t, input, width).Get(Cell(o, width, k, l)) == 0.0
    {
      UpWindowInside(t, input, width, o, k, l);
      OwnerOfCell(o, width, k, l);
    }
  }

  /** The cells compared before position (k, l) of the scan. */
  predicate Scanned(width: int, k: int, l: int, qk: int, ql: int) {
    0 <= qk < width && 0 <= ql < width && (qk < k || (qk == k && ql < l))
  }

  /** Once a cell equal to `v` has been compared, the settled position holds a cell equal to `v`. */
  lemma {:induction false} FoundMatches(t: Tensor, input: Tensor, width: int, o: Index, v: real, k: int, l: int, qk: int, ql: int)
    requires Upsamplable(t, input, width) && t.shape.Contains(o)
    requires 0 <= k <= width && 0 <= l <= width && (k == width ==> l == 0)
    requires Scanned(width, k, l, qk, ql)
    requires input.shape.Contains(Cell(o, width, qk, ql)) && input.Get(Cell(o, width, qk, ql)) == v
    ensures var p := Found(t, input, width, o, v, k, l);
      input.shape.Contains(Cell(o, width, p.0, p.1)) && input.Get(Cell(o, width, p.0, p.1)) == v
    decreases k, l
  {
    var p := Found(t, input, width, o, v, k, l);
    UpWindowInside(t, input, width, o, p.0, p.1);
    if l == 0 {
      FoundMatches(t, input, width, o, v, k - 1, width, qk, ql);
      return;
    }
    UpWindowInside(t, input, width, o, k, l - 1);
    if input.Get(Cell(o, width, k, l - 1)) != v {
      if qk == k && ql == l - 1 {
        assert false;
      }
      FoundMatches(t, input, width, o, v, k, l - 1, qk, ql);
    }
  }

  /**
   * max_upsampling of a max pooling routes each maximum back to a cell of
   * its window that holds that maximum.
   */
  lemma MaxUpsamplingFindsMax(input: Tensor, width: int, o: Index)
    requires Poolable(input, width)
    ensures Upsamplable(Pool(MaxOp, input, width), input, width)
    ensures var t := Pool(MaxOp, input, width);
      t.shape.Contains(o) ==>
        input.shape.Contains(Target(t, input, width, o)) && input.Get(Target(t, input, width, o)) == t.Get(o)
  {
    var t := Pool(MaxOp, input, width);
    Arith.DivMod(input.shape.d2, width);
    Arith.DivMod(input.shape.d3, width);
    assert Upsamplable(t, input, width);
    if t.shape.Contains(o) {
      MaxPoolingIsWindowMax(input, width, o);
      var qk, ql :| 0 <= qk < width && 0 <= ql < width &&
        input.shape.Contains(Cell(o, width, qk, ql)) && t.Get(o) == input.Get(Cell(o, width, qk, ql));
      FoundMatches(t, input, width, o, t.Get(o), width, 0, qk, ql);
    }
  }

  /** The shape of the spreading kernel of avg_upsampling: one width-by-width plane. */
  function PlaneShape(width: int): Shape {
    Shape(1, 1, width, width, 1)
  }

  /** The number of cells of a width-by-width window, as the divisor of avg_upsampling. */
  function Area(width: int): (a: real)
    requires width >= 1
    ensures a >= 1.0
  {
    (width * width) as real
  }

  /** Tensor::avg_upsampling: the Kronecker product with a plane of 1 / (width*width). */
  function AvgUpsampling(t: Tensor, width: int): (r: Tensor)
    requires t.Valid() && width >= 1
    ensures r.Valid() && r.shape == Shape(t.shape.d0, t.shape.d1, t.shape.d2 * width, t.shape.d3 * width, t.shape.d4)
  {
    Kron(t, ScalarRight(Ones(PlaneShape(width)), Divide, Area(width)))
  }

  /** Every cell of the window of a cell of t receives that cell divided by the window area. */
  lemma AvgUpsamplingSpreads(t: Tensor, width: int, o: Index, k: int, l: int)
    requires t.Valid() && width >= 1 && t.shape.Contains(o) && 0 <= k < width && 0 <= l < width
    ensures AvgUpsampling(t, width).shape.Contains(Cell(o, width, k, l))
    ensures AvgUpsampling(t, width).Readable(Cell(o, width, k, l))
    ensures AvgUpsampling(t, width).Get(Cell(o, width, k, l)) == Mul(t.Get(o), 1.0 / Area(width))
  {
    var p := ScalarRight(Ones(PlaneShape(width)), Divide, Area(width));
    var ib := Index(0, 0, k, l, 0);
    assert p.shape == PlaneShape(width);
    assert p.shape.Contains(ib);
    KronBlock(t, p, o, ib);
    assert Join(o, ib, PlaneShape(width)) == Cell(o, width, k, l) by {
      assert o.i0 * 1 + 0 == o.i0 && o.i1 * 1 + 0 == o.i1 && o.i4 * 1 + 0 == o.i4;
    }
    assert p.data[p.shape.Offset(ib)] == Apply(Divide, 1.0, Area(width));
  }
}
