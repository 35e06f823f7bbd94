/**
 * Tensor::__pooling_ and its max, min and average forms: each output cell
 * folds a width-by-width window of the width and height axes.
 */
module Pooling {

  import opened Shapes
  import opened Tensors
  import opened Elementwise
  import opened Sums
  import Arith

  /** The two-argument function folded over a window. */
  datatype PoolOp = MaxOp | MinOp | SumOp

  function Combine(op: PoolOp, x: real, y: real): (r: real)
    ensures op == MaxOp ==> r >= x && r >= y && (r == x || r == y)
    ensures op == MinOp ==> r <= x && r <= y && (r == x || r == y)
  {
    match op
    case MaxOp => if x > y then x else y
    case MinOp => if x < y then x else y
    case SumOp => x + y
  }

  /** A window fits: the width is positive and at most the width and height of the input. */
  predicate Poolable(t: Tensor, width: int) {
    t.Valid() && 1 <= width <= t.shape.d2 && width <= t.shape.d3
  }

  /** Axes 2 and 3 shrink by the window width (integer division). */
  function PooledShape(s: Shape, width: int): (r: Shape)
    requires width >= 1
    ensures r.d2 * width <= s.d2 < (r.d2 + 1) * width
    ensures r.d3 * width <= s.d3 < (r.d3 + 1) * width
  {
    Arith.DivBounds(s.d2, width);
    Arith.DivBounds(s.d3, width);
    Shape(s.d0, s.d1, s.d2 / width, s.d3 / width, s.d4)
  }

  lemma PooledValid(t: Tensor, width: int)
    requires Poolable(t, width)
    ensures PooledShape(t.shape, width).Valid()
  {
    Arith.DivMod(t.shape.d2, width);
    Arith.DivMod(t.shape.d3, width);
  }

  /** The input cell at row pk, column pl of the window of output cell `o`. */
  function Cell(o: Index, width: int, pk: int, pl: int): Index {
    Index(o.i0, o.i1, o.i2 * width + pk, o.i3 * width + pl, o.i4)
  }

  /** Every cell of the window of an output cell lies inside the input. */
  lemma WindowInside(t: Tensor, width: int, o: Index, pk: int, pl: int)
    requires Poolable(t, width) && PooledShape(t.shape, width).Contains(o)
    requires 0 <= pk < width && 0 <= pl < width
    ensures t.shape.Contains(Cell(o, width, pk, pl))
  {
    WindowAxis(o.i2, pk, width, t.shape.d2);
    WindowAxis(o.i3, pl, width, t.shape.d3);
  }

  lemma WindowAxis(q: int, p: int, width: int, d: int)
    requires width >= 1 && 0 <= q < d / width && 0 <= p < width
    ensures 0 <= q * width + p < d
  {
    Arith.DigitBound(q, d / width, p, width);
    Arith.DivMod(d, width);
  }

  /**
   * The running value of the window loops of output cell `o`, started
   * from `init`, once rows 0 .. pk-1 and the first pl cells of row pk have
   * been folded in.
   */
  function Fold(op: PoolOp, init: real, t: Tensor, o: Index, width: int, pk: int, pl: int): real
    requires Poolable(t, width) && PooledShape(t.shape, width).Contains(o)
    requires 0 <= pk <= width && 0 <= pl <= width && (pk == width ==> pl == 0)
    decreases pk, pl
  {
    if pk == 0 && pl == 0 then init
    else if pl == 0 then Fold(op, init, t, o, width, pk - 1, width)
    else
      WindowInside(t, width, o, pk, pl - 1);
      Combine(op, Fold(op, init, t, o, width, pk, pl - 1), t.Get(Cell(o, width, pk, pl - 1)))
  }

  /** The value the source stores for output cell `o`: the fold started from the window's top-left cell. */
  function Window(op: PoolOp, t: Tensor, o: Index, width: int): real
    requires Poolable(t, width) && PooledShape(t.shape, width).Contains(o)
  {
    WindowInside(t, width, o, 0, 0);
    Fold(op, t.Get(Cell(o, width, 0, 0)), t, o, width, width, 0)
  }

  /** __pooling_(width, op): every output cell is the fold of its window. */
  function Pool(op: PoolOp, t: Tensor, width: int): (r: Tensor)
    requires Poolable(t, width)
    ensures r.Valid() && r.shape == PooledShape(t.shape, width)
  {
    var s := PooledShape(t.shape, width);
    PooledValid(t, width);
    Build(s, (o: Index) requires s.Contains(o) => Window(op, t, o, width))
  }

  /** The two window loops of one output cell. */
  method WindowLoop(op: PoolOp, t: Tensor, o: Index, width: int) returns (value: real)
    requires Poolable(t, width) && PooledShape(t.shape, width).Contains(o)
    ensures value == Window(op, t, o, width)
  {
    WindowInside(t, width, o, 0, 0);
    var init := t.Get(Cell(o, width, 0, 0));
    value := init;
    var pk := 0;
    while pk < width
      invariant 0 <= pk <= width
      invariant value == Fold(op, init, t, o, width, pk, 0)
    {
      var pl := 0;
      while pl < width
        invariant 0 <= pl <= width
        invariant value == Fold(op, init, t, o, width, pk, pl)
      {
        WindowInside(t, width, o, pk, pl);
        value := Combine(op, value, t.Get(Cell(o, width, pk, pl)));
        pl := pl + 1;
      }
      pk := pk + 1;
    }
  }

  /** __pooling_: one pass over the output in the order of foreach_assign. */
  method PoolLoop(op: PoolOp, t: Tensor, width: int) returns (r: Tensor)
    requires Poolable(t, width)
    ensures r == Pool(op, t, width)
  {
    var s := PooledShape(t.shape, width);
    PooledValid(t, width);
    var buffer := new real[s.Size()];
    var j := 0;
    while j < buffer.Length
      invariant 0 <= j <= buffer.Length
      invariant forall i | 0 <= i < j :: buffer[i] == Window(op, t, s.Decode(i), width)
    {
      var o := s.Decode(j);
      var value := WindowLoop(op, t, o, width);
      buffer[j] := value;
      j := j + 1;
    }
    r := Tensor(s, buffer[..]);
    forall o | s.Contains(o)
      ensures r.Get(o) == Pool(op, t, width).Get(o)
    {
      DecodeOffset(s, o);
    }
    Ext(r, Pool(op, t, width));
  }

  /** Row pk of the window of output cell `o`, cell by cell (zero off the buffer). */
  function WindowRow(t: Tensor, o: Index, width: int, pk: int): int -> real {
    pl => if t.Readable(Cell(o, width, pk, pl)) then t.Get(Cell(o, width, pk, pl)) else 0.0
  }

  /** The row sums of the window of output cell `o`. */
  function WindowRows(t: Tensor, o: Index, width: int): int -> real {
    pk => Sum(width, WindowRow(t, o, width, pk))
  }

  /** The sum of the width-by-width window of output cell `o`. */
  function WindowSum(t: Tensor, o: Index, width: int): real {
    Sum(width, WindowRows(t, o, width))
  }

  /** The summing fold from `init` adds to it every cell folded in so far. */
  lemma {:induction false} SumFold(t: Tensor, o: Index, width: int, init: real, pk: int, pl: int)
    requires Poolable(t, width) && PooledShape(t.shape, width).Contains(o)
    requires 0 <= pk <= width && 0 <= pl <= width && (pk == width ==> pl == 0)
    ensures Fold(SumOp, init, t, o, width, pk, pl) ==
      init + Sum(pk, WindowRows(t, o, width)) + Sum(pl, WindowRow(t, o, width, pk))
    decreases pk, pl
  {
    if pk == 0 && pl == 0 {
    } else if pl == 0 {
      SumFold(t, o, width, init, pk - 1, width);
      SumFoldRow(t, o, width, init, pk);
    } else {
      SumFold(t, o, width, init, pk, pl - 1);
      SumFoldStep(t, o, width, init, pk, pl);
      var rows := Sum(pk, WindowRows(t, o, width));
      var before := Fold(SumOp, init, t, o, width, pk, pl - 1);
      var row := Sum(pl - 1, WindowRow(t, o, width, pk));
      var cell := t.Get(Cell(o, width, pk, pl - 1));
      assert before == init + rows + row;
      assert Fold(SumOp, init, t, o, width, pk, pl) == before + cell;
      assert Sum(pl, WindowRow(t, o, width, pk)) == row + cell;
    }
  }

  /** Starting row pk continues from the end of row pk - 1, whose sum joins the row sums. */
  lemma SumFoldRow(t: Tensor, o: Index, width: int, init: real, pk: int)
    requires Poolable(t, width) && PooledShape(t.shape, width).Contains(o)
    requires 0 < pk <= width
    ensures Fold(SumOp, init, t, o, width, pk, 0) == Fold(SumOp, init, t, o, width, pk - 1, width)
    ensures Sum(pk, WindowRows(t, o, width)) == Sum(pk - 1, WindowRows(t, o, width)) + Sum(width, WindowRow(t, o, width, pk - 1))
    ensures Sum(0, WindowRow(t, o, width, pk)) == 0.0
  {
  }

  /** Folding in cell (pk, pl - 1) adds it to the fold and to the sum of row pk. */
  lemma SumFoldStep(t: Tensor, o: Index, width: int, init: real, pk: int, pl: int)
    requires Poolable(t, width) && PooledShape(t.shape, width).Contains(o)
    requires 0 <= pk < width && 0 < pl <= width
    ensures t.shape.Contains(Cell(o, width, pk, pl - 1))
    ensures Fold(SumOp, init, t, o, width, pk, pl) ==
      Fold(SumOp, init, t, o, width, pk, pl - 1) + t.Get(Cell(o, width, pk, pl - 1))
    ensures Sum(pl, WindowRow(t, o, width, pk)) ==
      Sum(pl - 1, WindowRow(t, o, width, pk)) + t.Get(Cell(o, width, pk, pl - 1))
  {
    WindowInside(t, width, o, pk, pl - 1);
  }

  /** Each cell of the summing pooling is its window's sum plus, once more, the top-left cell. */
  lemma PoolSumCell(t: Tensor, width: int, o: Index)
    requires Poolable(t, width) && PooledShape(t.shape, width).Contains(o)
    ensures t.shape.Contains(Cell(o, width, 0, 0))
    ensures Pool(SumOp, t, width).Get(o) == WindowSum(t, o, width) + t.Get(Cell(o, width, 0, 0))
  {
    WindowInside(t, width, o, 0, 0);
    SumFold(t, o, width, t.Get(Cell(o, width, 0, 0)), width, 0);
  }

  /**
   * Tensor::avg_pooling: the summing fold divided by the window area, so
   * each cell is the window's sum plus its top-left cell a second time,
   * over width * width.
   */
  function AvgPooling(t: Tensor, width: int): (r: Tensor)
    requires Poolable(t, width)
    ensures r.Valid() && r.shape == PooledShape(t.shape, width)
    ensures forall o | r.shape.Contains(o) ::
      t.shape.Contains(Cell(o, width, 0, 0)) &&
      r.Get(o) == (WindowSum(t, o, width) + t.Get(Cell(o, width, 0, 0))) / (width * width) as real
  {
    var p := Pool(SumOp, t, width);
    var r := ScalarRight(p, Divide, (width * width) as real);
    assert forall o | r.shape.Contains(o) ::
      t.shape.Contains(Cell(o, width, 0, 0)) &&
      r.Get(o) == (WindowSum(t, o, width) + t.Get(Cell(o, width, 0, 0))) / (width * width) as real by {
      forall o | r.shape.Contains(o)
        ensures t.shape.Contains(Cell(o, width, 0, 0))
        ensures r.Get(o) == (WindowSum(t, o, width) + t.Get(Cell(o, width, 0, 0))) / (width * width) as real
      {
        PoolSumCell(t, width, o);
        assert r.data[r.shape.Offset(o)] == p.data[p.shape.Offset(o)] / (width * width) as real;
      }
    }
    r
  }

  /** The cells folded in before position (pk, pl) of the window. */
  predicate Before(width: int, pk: int, pl: int, qk: int, ql: int) {
    0 <= qk < width && 0 <= ql < width && (qk < pk || (qk == pk && ql < pl))
  }

  /** The max fold is at least its start and every cell folded so far, and equals one of them. */
  lemma {:induction false} MaxFold(t: Tensor, o: Index, width: int, init: real, pk: int, pl: int)
    requires Poolable(t, width) && PooledShape(t.shape, width).Contains(o)
    requires 0 <= pk <= width && 0 <= pl <= width && (pk == width ==> pl == 0)
    ensures Fold(MaxOp, init, t, o, width, pk, pl) >= init
    ensures forall qk, ql | Before(width, pk, pl, qk, ql) ::
      t.shape.Contains(Cell(o, width, qk, ql)) && Fold(MaxOp, init, t, o, width, pk, pl) >= t.Get(Cell(o, width, qk, ql))
    ensures Fold(MaxOp, init, t, o, width, pk, pl) == init ||
      exists qk, ql | Before(width, pk, pl, qk, ql) ::
        t.shape.Contains(Cell(o, width, qk, ql)) && Fold(MaxOp, init, t, o, width, pk, pl) == t.Get(Cell(o, width, qk, ql))
    decreases pk, pl
  {
    forall qk, ql | Before(width, pk, pl, qk, ql)
      ensures t.shape.Contains(Cell(o, width, qk, ql))
    {
      WindowInside(t, width, o, qk, ql);
    }
    if pk == 0 && pl == 0 {
    } else if pl == 0 {
      MaxFold(t, o, width, init, pk - 1, width);
      assert forall qk, ql :: Before(width, pk, pl, qk, ql) <==> Before(width, pk - 1, width, qk, ql);
    } else {
      MaxFold(t, o, width, init, pk, pl - 1);
      var prev := Fold(MaxOp, init, t, o, width, pk, pl - 1);
      var here := Fold(MaxOp, init, t, o, width, pk, pl);
      if here != prev {
        assert Before(width, pk, pl, pk, pl - 1);
      } else if prev != init {
        var qk, ql :| Before(width, pk, pl - 1, qk, ql) && t.shape.Contains(Cell(o, width, qk, ql)) && prev == t.Get(Cell(o, width, qk, ql));
        assert Before(width, pk, pl, qk, ql);
      }
    }
  }

  /** The min fold is at most its start and every cell folded so far, and equals one of them. */
  lemma {:induction false} MinFold(t: Tensor, o: Index, width: int, init: real, pk: int, pl: int)
    requires Poolable(t, width) && PooledShape(t.shape, width).Contains(o)
    requires 0 <= pk <= width && 0 <= pl <= width && (pk == width ==> pl == 0)
    ensures Fold(MinOp, init, t, o, width, pk, pl) <= init
    ensures forall qk, ql | Before(width, pk, pl, qk, ql) ::
      t.shape.Contains(Cell(o, width, qk, ql)) && Fold(MinOp, init, t, o, width, pk, pl) <= t.Get(Cell(o, width, qk, ql))
    ensures Fold(MinOp, init, t, o, width, pk, pl) == init ||
      exists qk, ql | Before(width, pk, pl, qk, ql) ::
        t.shape.Contains(Cell(o, width, qk, ql)) && Fold(MinOp, init, t, o, width, pk, pl) == t.Get(Cell(o, width, qk, ql))
    decreases pk, pl
  {
    forall qk, ql | Before(width, pk, pl, qk, ql)
      ensures t.shape.Contains(Cell(o, width, qk, ql))
    {
      WindowInside(t, width, o, qk, ql);
    }
    if pk == 0 && pl == 0 {
    } else if pl == 0 {
      MinFold(t, o, width, init, pk - 1, width);
      assert forall qk, ql :: Before(width, pk, pl, qk, ql) <==> Before(width, pk - 1, width, qk, ql);
    } else {
      MinFold(t, o, width, init, pk, pl - 1);
      var prev := Fold(MinOp, init, t, o, width, pk, pl - 1);
      var here := Fold(MinOp, init, t, o, width, pk, pl);
      if here != prev {
        assert Before(width, pk, pl, pk, pl - 1);
      } else if prev != init {
        var qk, ql :| Before(width, pk, pl - 1, qk, ql) && t.shape.Contains(Cell(o, width, qk, ql)) && prev == t.Get(Cell(o, width, qk, ql));
        assert Before(width, pk, pl, qk, ql);
      }
    }
  }

  /** max_pooling: each output cell is the largest cell of its window, and is one of them. */
  lemma MaxPoolingIsWindowMax(t: Tensor, width: int, o: Index)
    requires Poolable(t, width) && PooledShape(t.shape, width).Contains(o)
    ensures forall pk, pl | 0 <= pk < width && 0 <= pl < width ::
      t.shape.Contains(Cell(o, width, pk, pl)) && Pool(MaxOp, t, width).Get(o) >= t.Get(Cell(o, width, pk, pl))
    ensures exists pk, pl | 0 <= pk < width && 0 <= pl < width ::
      t.shape.Contains(Cell(o, width, pk, pl)) && Pool(MaxOp, t, width).Get(o) == t.Get(Cell(o, width, pk, pl))
  {
    WindowInside(t, width, o, 0, 0);
    var init := t.Get(Cell(o, width, 0, 0));
    MaxFold(t, o, width, init, width, 0);
    assert forall pk, pl :: Before(width, width, 0, pk, pl) <==> 0 <= pk < width && 0 <= pl < width;
    assert Before(width, width, 0, 0, 0);
  }

  /** min_pooling: each output cell is the smallest cell of its window, and is one of them. */
  lemma MinPoolingIsWindowMin(t: Tensor, width: int, o: Index)
    requires Poolable(t, width) && PooledShape(t.shape, width).Contains(o)
    ensures forall pk, pl | 0 <= pk < width && 0 <= pl < width ::
      t.shape.Contains(Cell(o, width, pk, pl)) && Pool(MinOp, t, width).Get(o) <= t.Get(Cell(o, width, pk, pl))
    ensures exists pk, pl | 0 <= pk < width && 0 <= pl < width ::
      t.shape.Contains(Cell(o, width, pk, pl)) && Pool(MinOp, t, width).Get(o) == t.Get(Cell(o, width, pk, pl))
  {
    WindowInside(t, width, o, 0, 0);
    var init := t.Get(Cell(o, width, 0, 0));
    MinFold(t, o, width, init, width, 0);
    assert forall pk, pl :: Before(width, width, 0, pk, pl) <==> 0 <= pk < width && 0 <= pl < width;
    assert Before(width, width, 0, 0, 0);
  }

  /** On a tensor of ones the summing fold from `init` adds one per cell folded in. */
  lemma {:induction false} SumFoldOnes(s: Shape, o: Index, width: int, init: real, pk: int, pl: int)
    requires s.Valid() && Poolable(Ones(s), width) && PooledShape(s, width).Contains(o)
    requires 0 <= pk <= width && 0 <= pl <= width && (pk == width ==> pl == 0)
    ensures Fold(SumOp, init, Ones(s), o, width, pk, pl) == init + (pk * width + pl) as real
    decreases pk, pl
  {
    if pk == 0 && pl == 0 {
    } else if pl == 0 {
      SumFoldOnes(s, o, width, init, pk - 1, width);
      assert (pk - 1) * width + width == pk * width;
    } else {
      SumFoldOnes(s, o, width, init, pk, pl - 1);
      WindowInside(Ones(s), width, o, pk, pl - 1);
    }
  }

  /**
   * The summing fold starts from the top-left cell and then visits it
   * again, so on a tensor of ones every cell of the summed pooling holds
   * width*width + 1, and avg_pooling divides that by width*width.
   */
  lemma AvgPoolingCountsCornerTwice(s: Shape, width: int, o: Index)
    requires s.Valid() && Poolable(Ones(s), width) && PooledShape(s, width).Contains(o)
    ensures Pool(SumOp, Ones(s), width).Get(o) == (width * width + 1) as real
    ensures AvgPooling(Ones(s), width).Get(o) == (width * width + 1) as real / (width * width) as real
  {
    WindowInside(Ones(s), width, o, 0, 0);
    SumFoldOnes(s, o, width, 1.0, width, 0);
    var p := Pool(SumOp, Ones(s), width);
    var k := p.shape.Offset(o);
    assert AvgPooling(Ones(s), width).data[k] == Apply(Divide, p.data[k], (width * width) as real);
  }
}
