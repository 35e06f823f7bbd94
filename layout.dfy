/**
 * Operations that move cells without arithmetic on them: transpose,
 * permute, reshape, slice, rotate180, padding and clipping.
 */
module Layout {

  import opened Shapes
  import opened Tensors

  /** The shape with the height and channel axes swapped. */
  function Swapped34(s: Shape): Shape {
    Shape(s.d0, s.d1, s.d2, s.d4, s.d3)
  }

  /** The subscript with the height and channel entries swapped. */
  function Swap34(ix: Index): Index {
    Index(ix.i0, ix.i1, ix.i2, ix.i4, ix.i3)
  }

  /** Tensor::Transpose: swaps the height and channel axes. */
  function Transpose(t: Tensor): (r: Tensor)
    requires t.Valid()
    ensures r.Valid() && r.shape == Swapped34(t.shape)
    ensures forall ix | t.shape.Contains(ix) :: r.Get(Swap34(ix)) == t.Get(ix)
  {
    var r := Build(Swapped34(t.shape), (o: Index) requires Swapped34(t.shape).Contains(o) => t.Get(Swap34(o)));
    assert forall ix | t.shape.Contains(ix) :: r.shape.Contains(Swap34(ix)) && Swap34(Swap34(ix)) == ix;
    r
  }

  /** Transposing twice gives the tensor back. */
  lemma TransposeTwice(t: Tensor)
    requires t.Valid()
    ensures Transpose(Transpose(t)) == t
  {
    var r := Transpose(Transpose(t));
    forall ix | t.shape.Contains(ix)
      ensures r.Get(ix) == t.Get(ix)
    {
      assert Swap34(Swap34(ix)) == ix;
    }
    Ext(r, t);
  }

  /** An axis order: five axis numbers. */
  predicate IsOrder(order: seq<int>) {
    |order| == 5 && forall p | 0 <= p < 5 :: 0 <= order[p] < 5
  }

  /** An axis order that names every axis exactly once. */
  predicate IsPermutation(order: seq<int>) {
    IsOrder(order) &&
    (forall p, q | 0 <= p < q < 5 :: order[p] != order[q]) &&
    (forall a | 0 <= a < 5 :: a in order)
  }

  /** The shape permute produces: its axis p has the length of axis order[p]. */
  function PermutedShape(s: Shape, order: seq<int>): Shape
    requires IsOrder(order)
  {
    Shape(s.Dim(order[0]), s.Dim(order[1]), s.Dim(order[2]), s.Dim(order[3]), s.Dim(order[4]))
  }

  /**
   * The input subscript permute reads for output subscript `o`: starting
   * from all zeros, entry order[p] is set to o's entry p for p = 0, ..., 4 in
   * turn, so a later position overwrites an earlier one naming the same axis.
   */
  function Subs(order: seq<int>, o: Index): Index
    requires IsOrder(order)
  {
    Index(0, 0, 0, 0, 0).With(order[0], o.i0).With(order[1], o.i1).With(order[2], o.i2)
      .With(order[3], o.i3).With(order[4], o.i4)
  }

  /** Whatever the order, permute reads only cells of its input. */
  lemma SubsInside(s: Shape, order: seq<int>, o: Index)
    requires s.Valid() && IsOrder(order) && PermutedShape(s, order).Contains(o)
    ensures s.Contains(Subs(order, o))
  {
    var z := Index(0, 0, 0, 0, 0);
    WithInside(s, z, order[0], o.i0);
    var a := z.With(order[0], o.i0);
    WithInside(s, a, order[1], o.i1);
    var b := a.With(order[1], o.i1);
    WithInside(s, b, order[2], o.i2);
    var c := b.With(order[2], o.i2);
    WithInside(s, c, order[3], o.i3);
    var d := c.With(order[3], o.i3);
    WithInside(s, d, order[4], o.i4);
  }

  /** For a permutation nothing is overwritten: entry order[p] of the read subscript is o's entry p. */
  lemma SubsOfPermutation(order: seq<int>, o: Index)
    requires IsPermutation(order)
    ensures forall p | 0 <= p < 5 :: Subs(order, o).Get(order[p]) == o.Get(p)
  {
  }

  /** Tensor::permute(order) */
  function Permute(t: Tensor, order: seq<int>): (r: Tensor)
    requires t.Valid() && IsOrder(order)
    ensures r.Valid() && r.shape == PermutedShape(t.shape, order)
    ensures forall o | r.shape.Contains(o) :: t.shape.Contains(Subs(order, o)) && r.Get(o) == t.Get(Subs(order, o))
  {
    var s := PermutedShape(t.shape, order);
    assert forall o | s.Contains(o) :: t.shape.Contains(Subs(order, o)) by {
      forall o | s.Contains(o)
        ensures t.shape.Contains(Subs(order, o))
      {
        SubsInside(t.shape, order, o);
      }
    }
    Build(s, (o: Index) requires s.Contains(o) => t.Get(Subs(order, o)))
  }

  /** The position at which a permutation names axis `a`. */
  function Position(order: seq<int>, a: int): (p: int)
    requires IsPermutation(order) && 0 <= a < 5
    ensures 0 <= p < 5 && order[p] == a
  {
    assert a in order;
    if order[0] == a then 0 else if order[1] == a then 1
    else if order[2] == a then 2 else if order[3] == a then 3 else 4
  }

  /** The inverse of a permutation: position a holds the p with order[p] == a. */
  function Inverse(order: seq<int>): (inv: seq<int>)
    requires IsPermutation(order)
    ensures IsPermutation(inv)
    ensures forall a | 0 <= a < 5 :: order[inv[a]] == a
    ensures forall p | 0 <= p < 5 :: inv[order[p]] == p
  {
    var inv := seq(5, a requires 0 <= a < 5 => Position(order, a));
    assert forall p | 0 <= p < 5 :: inv[order[p]] == p by {
      forall p | 0 <= p < 5
        ensures inv[order[p]] == p
      {
        var q := Position(order, order[p]);
        assert order[q] == order[p];
      }
    }
    assert forall a | 0 <= a < 5 :: a in inv by {
      forall a | 0 <= a < 5
        ensures a in inv
      {
        assert inv[order[a]] == a;
      }
    }
    inv
  }

  /** Reading through the inverse order and then the order itself lands on the same subscript. */
  lemma SubsInverse(order: seq<int>, ix: Index)
    requires IsPermutation(order)
    ensures Subs(order, Subs(Inverse(order), ix)) == ix
  {
    var inv := Inverse(order);
    var u := Subs(inv, ix);
    SubsOfPermutation(inv, ix);
    SubsOfPermutation(order, u);
    var y := Subs(order, u);
    forall a | 0 <= a < 5
      ensures y.Get(a) == ix.Get(a)
    {
      assert y.Get(order[inv[a]]) == u.Get(inv[a]);
    }
    assert y.Get(0) == ix.Get(0) && y.Get(1) == ix.Get(1) && y.Get(2) == ix.Get(2);
    assert y.Get(3) == ix.Get(3) && y.Get(4) == ix.Get(4);
  }

  /** Permuting a shape by an order and then by its inverse gives the shape back. */
  lemma PermutedShapeInverse(s: Shape, order: seq<int>)
    requires IsPermutation(order)
    ensures PermutedShape(PermutedShape(s, order), Inverse(order)) == s
  {
    var inv := Inverse(order);
    var p := PermutedShape(s, order);
    var r := PermutedShape(p, inv);
    forall a | 0 <= a < 5
      ensures r.Dim(a) == s.Dim(a)
    {
      assert r.Dim(a) == p.Dim(inv[a]) == s.Dim(order[inv[a]]);
    }
    assert r.Dim(0) == s.Dim(0) && r.Dim(1) == s.Dim(1) && r.Dim(2) == s.Dim(2);
    assert r.Dim(3) == s.Dim(3) && r.Dim(4) == s.Dim(4);
  }

  /** Permuting by the inverse order undoes a permute. */
  lemma PermuteInverse(t: Tensor, order: seq<int>)
    requires t.Valid() && IsPermutation(order)
    ensures Permute(Permute(t, order), Inverse(order)) == t
  {
    var inv := Inverse(order);
    var p := Permute(t, order);
    var r := Permute(p, inv);
    PermutedShapeInverse(t.shape, order);
    forall ix | t.shape.Contains(ix)
      ensures r.Get(ix) == t.Get(ix)
    {
      SubsInverse(order, ix);
    }
    Ext(r, t);
  }

  /** Transpose is the permute that swaps the last two axes. */
  lemma TransposeIsPermute(t: Tensor)
    requires t.Valid()
    ensures Transpose(t) == Permute(t, [0, 1, 2, 4, 3])
  {
    var a, b := Transpose(t), Permute(t, [0, 1, 2, 4, 3]);
    forall o | a.shape.Contains(o)
      ensures a.Get(o) == b.Get(o)
    {
      assert Swap34(Swap34(o)) == o;
      assert Subs([0, 1, 2, 4, 3], o) == Swap34(o);
    }
    Ext(a, b);
  }

  /**
   * Tensor::reshape(shape_out): cell o of the output holds the input buffer
   * cell at o's linear index in the NEW shape, so the buffer is copied
   * unchanged up to the new size.
   */
  function Reshape(t: Tensor, s: Shape): (r: Tensor)
    requires t.Valid() && s.Valid() && s.Size() <= |t.data|
    ensures r.Valid() && r.shape == s
    ensures r.data == t.data[..s.Size()]
  {
    var r := Build(s, (o: Index) requires s.Contains(o) => t.data[s.Offset(o)]);
    assert r.data == t.data[..s.Size()] by {
      forall k | 0 <= k < s.Size()
        ensures r.data[k] == t.data[k]
      {
        var o := s.Decode(k);
        assert r.Get(o) == t.data[k];
      }
    }
    r
  }

  /** Reshaping to a shape of the same size and back gives the tensor back. */
  lemma ReshapeRoundTrip(t: Tensor, s: Shape)
    requires t.Valid() && s.Valid() && s.Size() == t.shape.Size()
    ensures Reshape(Reshape(t, s), t.shape) == t
  {
  }

  /** The subscript moved by `delta` along `axis`. */
  function Moved(ix: Index, axis: int, delta: int): Index
    requires 0 <= axis < 5
  {
    ix.With(axis, ix.Get(axis) + delta)
  }

  /**
   * Every read of slice lies in the buffer: the output shape is valid and
   * the linear indices of the first and the last subscript read are in range.
   */
  predicate Sliceable(t: Tensor, start: int, end: int, axis: int) {
    t.Valid() && 0 <= axis < 5 && end - start >= 1 &&
    0 <= t.shape.Offset(Index(0, 0, 0, 0, 0).With(axis, start)) &&
    t.shape.Offset(t.shape.Last().With(axis, end - 1)) < |t.data|
  }

  /**
   * Tensor::slice(start, end, axis) for axis 0..4: the output has end-start
   * entries along `axis` and reads the input moved by `start` along it.
   */
  function Slice(t: Tensor, start: int, end: int, axis: int): (r: Tensor)
    requires Sliceable(t, start, end, axis)
    ensures r.Valid() && r.shape == t.shape.With(axis, end - start)
    ensures forall o | r.shape.Contains(o) :: t.Readable(Moved(o, axis, start)) && r.Get(o) == t.Get(Moved(o, axis, start))
  {
    var s := t.shape.With(axis, end - start);
    assert forall o | s.Contains(o) :: t.Readable(Moved(o, axis, start)) by {
      forall o | s.Contains(o)
        ensures t.Readable(Moved(o, axis, start))
      {
        OffsetBelow(t.shape, Index(0, 0, 0, 0, 0).With(axis, start), Moved(o, axis, start));
        OffsetBelow(t.shape, Moved(o, axis, start), t.shape.Last().With(axis, end - 1));
      }
    }
    Build(s, (o: Index) requires s.Contains(o) => t.Get(Moved(o, axis, start)))
  }

  /** Slicing a whole axis gives the tensor back. */
  lemma SliceWhole(t: Tensor, axis: int)
    requires t.Valid() && 0 <= axis < 5
    ensures Sliceable(t, 0, t.shape.Dim(axis), axis)
    ensures Slice(t, 0, t.shape.Dim(axis), axis) == t
  {
    OffsetMonotone(t.shape, Index(0, 0, 0, 0, 0), t.shape.Last());
    assert t.shape.Last().With(axis, t.shape.Dim(axis) - 1) == t.shape.Last();
    var r := Slice(t, 0, t.shape.Dim(axis), axis);
    assert r.shape == t.shape;
    forall o | t.shape.Contains(o)
      ensures r.Get(o) == t.Get(o)
    {
      assert Moved(o, axis, 0) == o;
    }
    Ext(r, t);
  }

  /** A slice within the axis's range is always readable. */
  lemma SliceableInAxis(t: Tensor, start: int, end: int, axis: int)
    requires t.Valid() && 0 <= axis < 5
    requires 0 <= start < end <= t.shape.Dim(axis)
    ensures Sliceable(t, start, end, axis)
  {
    OffsetMonotone(t.shape, Index(0, 0, 0, 0, 0).With(axis, start), t.shape.Last());
    OffsetMonotone(t.shape, t.shape.Last().With(axis, end - 1), t.shape.Last());
  }

  /** The first subscript rotate180 reads (for the last output cell). */
  function RotateFirstRead(s: Shape): Index {
    Index(0, 0, s.d3 - s.d2, s.d2 - s.d3, 0)
  }

  /** The last subscript rotate180 reads (for the first output cell). */
  function RotateLastRead(s: Shape): Index {
    Index(s.d0 - 1, s.d1 - 1, s.d3 - 1, s.d2 - 1, s.d4 - 1)
  }

  /** The input subscript rotate180 reads for output subscript `o`. */
  function RotateRead(s: Shape, o: Index): Index {
    Index(o.i0, o.i1, s.d3 - o.i3 - 1, s.d2 - o.i2 - 1, o.i4)
  }

  /** Every read of rotate180 lies in the buffer. */
  predicate Rotatable(t: Tensor) {
    t.Valid() && 0 <= t.shape.Offset(RotateFirstRead(t.shape)) && t.shape.Offset(RotateLastRead(t.shape)) < |t.data|
  }

  /**
   * Tensor::rotate180: the width and height axes swap lengths and output
   * cell (k, l) of each frame reads input cell (h-1-l, w-1-k), where w and h
   * are the input's width and height.
   */
  function Rotate180(t: Tensor): (r: Tensor)
    requires Rotatable(t)
    ensures r.Valid() && r.shape == Swapped23(t.shape)
    ensures forall o | r.shape.Contains(o) :: t.Readable(RotateRead(t.shape, o)) && r.Get(o) == t.Get(RotateRead(t.shape, o))
  {
    var s := Swapped23(t.shape);
    assert forall o | s.Contains(o) :: t.Readable(RotateRead(t.shape, o)) by {
      forall o | s.Contains(o)
        ensures t.Readable(RotateRead(t.shape, o))
      {
        OffsetBelow(t.shape, RotateFirstRead(t.shape), RotateRead(t.shape, o));
        OffsetBelow(t.shape, RotateRead(t.shape, o), RotateLastRead(t.shape));
      }
    }
    Build(s, (o: Index) requires s.Contains(o) => t.Get(RotateRead(t.shape, o)))
  }

  /** The shape with the width and height axes swapped. */
  function Swapped23(s: Shape): Shape {
    Shape(s.d0, s.d1, s.d3, s.d2, s.d4)
  }

  /** A square tensor (equal width and height) can always be rotated. */
  lemma SquareRotatable(t: Tensor)
    requires t.Valid() && t.shape.d2 == t.shape.d3
    ensures Rotatable(t)
  {
    OffsetMonotone(t.shape, Index(0, 0, 0, 0, 0), t.shape.Last());
  }

  /**
   * On a square tensor rotate180 mirrors each frame across its
   * anti-diagonal, and doing it twice gives the tensor back.
   */
  lemma RotateTwice(t: Tensor)
    requires t.Valid() && t.shape.d2 == t.shape.d3
    ensures Rotatable(t) && Rotatable(Rotate180(t))
    ensures Rotate180(Rotate180(t)) == t
  {
    SquareRotatable(t);
    var once := Rotate180(t);
    assert once.shape == t.shape;
    SquareRotatable(once);
    var twice := Rotate180(once);
    forall ix | t.shape.Contains(ix)
      ensures twice.Get(ix) == t.Get(ix)
    {
      var m := RotateRead(t.shape, ix);
      assert t.shape.Contains(m);
      assert twice.Get(ix) == once.Get(m);
      assert RotateRead(t.shape, m) == ix;
    }
    Ext(twice, t);
  }

  /** The padded shape: `width` more cells on each side of the width and height axes. */
  function PaddedShape(s: Shape, width: int): Shape {
    Shape(s.d0, s.d1, s.d2 + 2 * width, s.d3 + 2 * width, s.d4)
  }

  /** The subscript moved by (dx, dy) along the width and height axes. */
  function Shift(ix: Index, dx: int, dy: int): Index {
    Index(ix.i0, ix.i1, ix.i2 + dx, ix.i3 + dy, ix.i4)
  }

  /** The padded tensor: the input in the middle, zeros on the border. */
  function Padded(t: Tensor, width: int): (r: Tensor)
    requires t.Valid() && width >= 0
    ensures r.Valid() && r.shape == PaddedShape(t.shape, width)
    ensures forall ix | t.shape.Contains(ix) :: r.Get(Shift(ix, width, width)) == t.Get(ix)
    ensures forall o | r.shape.Contains(o) && !t.shape.Contains(Shift(o, -width, -width)) :: r.Get(o) == 0.0
  {
    var s := PaddedShape(t.shape, width);
    var r := Build(s, (o: Index) requires s.Contains(o) =>
      var ix := Shift(o, -width, -width);
      if t.shape.Contains(ix) then t.Get(ix) else 0.0);
    assert forall ix | t.shape.Contains(ix) :: Shift(Shift(ix, width, width), -width, -width) == ix;
    r
  }

  /**
   * Tensor::padding(width): a zero tensor of the padded shape, then one pass
   * over the input storing each cell `width` further along the width and
   * height axes.
   */
  method Padding(t: Tensor, width: int) returns (r: Tensor)
    requires t.Valid() && width >= 0
    ensures r == Padded(t, width)
  {
    var s := PaddedShape(t.shape, width);
    var out := new real[s.Size()](_ => 0.0);
    var k := 0;
    while k < t.shape.Size()
      invariant 0 <= k <= t.shape.Size()
      invariant forall o | s.Contains(o) :: (out[s.Offset(o)] ==
        var ix := Shift(o, -width, -width);
        if t.shape.Contains(ix) && t.shape.Offset(ix) < k then t.Get(ix) else 0.0)
    {
      var ix := t.shape.Decode(k);
      var target := Shift(ix, width, width);
      assert s.Contains(target);
      assert Shift(target, -width, -width) == ix;
      forall o | s.Contains(o) && s.Offset(o) == s.Offset(target)
        ensures o == target
      {
        OffsetInjective(s, o, target);
      }
      forall o | s.Contains(o) && t.shape.Contains(Shift(o, -width, -width)) && t.shape.Offset(Shift(o, -width, -width)) == k
        ensures o == target
      {
        OffsetInjective(t.shape, Shift(o, -width, -width), ix);
        assert Shift(Shift(o, -width, -width), width, width) == o;
      }
      out[s.Offset(target)] := t.Get(ix);
      k := k + 1;
    }
    r := Tensor(s, out[..]);
    forall o | s.Contains(o)
      ensures r.Get(o) == Padded(t, width).Get(o)
    {
    }
    Ext(r, Padded(t, width));
  }

  /** The clipped shape: `margin` fewer cells on each side of the width and height axes. */
  predicate Clippable(t: Tensor, margin: int) {
    t.Valid() && margin >= 0 && t.shape.d2 - 2 * margin >= 1 && t.shape.d3 - 2 * margin >= 1
  }

  /** Tensor::clipping(margin): the inner part, reading each cell `margin` further along width and height. */
  function Clipping(t: Tensor, margin: int): (r: Tensor)
    requires Clippable(t, margin)
    ensures r.Valid() && r.shape == PaddedShape(t.shape, -margin)
    ensures forall o | r.shape.Contains(o) :: t.shape.Contains(Shift(o, margin, margin)) && r.Get(o) == t.Get(Shift(o, margin, margin))
  {
    var s := PaddedShape(t.shape, -margin);
    Build(s, (o: Index) requires s.Contains(o) => t.Get(Shift(o, margin, margin)))
  }

  /** Clipping what padding added gives the tensor back. */
  lemma ClipUndoesPad(t: Tensor, width: int)
    requires t.Valid() && width >= 0
    ensures Clippable(Padded(t, width), width)
    ensures Clipping(Padded(t, width), width) == t
  {
    var p := Padded(t, width);
    var r := Clipping(p, width);
    assert r.shape == t.shape;
    forall o | t.shape.Contains(o)
      ensures r.Get(o) == t.Get(o)
    {
      assert Shift(Shift(o, width, width), -width, -width) == o;
    }
    Ext(r, t);
  }
}
