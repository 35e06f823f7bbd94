/**
 * reduce_sum and reduce_mean: summing a tensor along one axis.
 *
 * The engine starts from a zero tensor of the reduced shape and makes one
 * pass over the input per case of a switch on the axis, adding each input
 * cell into the output cell with the same subscript pinned to 0 on that
 * axis. The sample case has no `break`, so it falls through into the frame
 * case and makes a second pass.
 */
module Reduction {

  import opened Shapes
  import opened Tensors
  import opened Sums
  import opened Elementwise

  /**
   * The shape reduce_sum produces: length 1 along the reduced axis. For an
   * axis outside 0 .. 4 the shape is taken to be left as it is.
   */
  function Reduced(s: Shape, axis: int): Shape {
    if 0 <= axis < 5 then s.With(axis, 1) else s
  }

  /**
   * Term x of the line through `q` along `axis`: the input cell with entry
   * `axis` replaced by x, counted only once a pass has visited it (its linear
   * index is below n).
   */
  function Line(t: Tensor, q: Index, axis: int, n: int): int -> real
    requires t.Valid() && 0 <= axis < 5
  {
    x => if t.shape.Contains(q.With(axis, x)) && t.shape.Offset(q.With(axis, x)) < n then t.Get(q.With(axis, x)) else 0.0
  }

  /** The sum of the cells on the line through `q` along `axis`. */
  function AxisSum(t: Tensor, q: Index, axis: int): real
    requires t.Valid() && 0 <= axis < 5
  {
    Sum(t.shape.Dim(axis), Line(t, q, axis, t.shape.Size()))
  }

  /** The sum along `axis` that reduce_sum is meant to compute, for every axis. */
  function SumAlong(t: Tensor, axis: int): (r: Tensor)
    requires t.Valid() && 0 <= axis < 5
    ensures r.Valid() && r.shape == Reduced(t.shape, axis)
  {
    var s := Reduced(t.shape, axis);
    Build(s, (q: Index) requires s.Contains(q) => AxisSum(t, q, axis))
  }

  /**
   * What Tensor::reduce_sum computes. For the frame, width, height and
   * channel axes this is the sum along the axis. For the sample axis (which
   * needs a single sample, as the fall-through pass writes sample by
   * sample into a one-sample output, see FallThroughWritesPastOutput) the
   * sample pass copies the input and the fall-through frame pass then adds
   * the sum over frames into frame 0. Any other axis takes the default
   * branch, which reports an error and returns the zero tensor.
   */
  function ReduceSumAsWritten(t: Tensor, axis: int): (r: Tensor)
    requires t.Valid() && (axis == 0 ==> t.shape.d0 == 1)
    ensures r.Valid() && r.shape == Reduced(t.shape, axis)
    ensures !(0 <= axis < 5) ==> forall q | r.shape.Contains(q) :: r.Get(q) == 0.0
  {
    if axis == 0 then
      var s := Reduced(t.shape, 0);
      Build(s, (q: Index) requires s.Contains(q) =>
        AxisSum(t, q, 0) + (if q.i1 == 0 then AxisSum(t, q, 1) else 0.0))
    else if 0 < axis < 5 then
      SumAlong(t, axis)
    else
      Zeros(t.shape)
  }

  /** The output buffer value after a pass has visited the first n input cells. */
  function Accumulated(init: real, t: Tensor, q: Index, axis: int, n: int): real
    requires t.Valid() && 0 <= axis < 5
  {
    init + (if q.Get(axis) == 0 then Sum(t.shape.Dim(axis), Line(t, q, axis, n)) else 0.0)
  }

  /** Visiting input cell n adds it to the line through its target and to no other line. */
  lemma LineStep(t: Tensor, q: Index, axis: int, n: int)
    requires t.Valid() && 0 <= axis < 5 && 0 <= n < t.shape.Size()
    requires q.Get(axis) == 0
    ensures var ix := t.shape.Decode(n);
      Sum(t.shape.Dim(axis), Line(t, q, axis, n + 1)) ==
      Sum(t.shape.Dim(axis), Line(t, q, axis, n)) + (if ix.With(axis, 0) == q then t.Get(ix) else 0.0)
  {
    var ix := t.shape.Decode(n);
    var f, g := Line(t, q, axis, n), Line(t, q, axis, n + 1);
    var at := ix.Get(axis);
    forall x | 0 <= x < t.shape.Dim(axis) && x != at
      ensures f(x) == g(x)
    {
      var c := q.With(axis, x);
      if t.shape.Contains(c) && t.shape.Offset(c) == n {
        OffsetInjective(t.shape, c, ix);
      }
    }
    if ix.With(axis, 0) == q {
      assert q.With(axis, at) == ix;
      SumPoint(t.shape.Dim(axis), f, g, at, t.Get(ix));
    } else {
      var c := q.With(axis, at);
      if t.shape.Contains(c) && t.shape.Offset(c) == n {
        OffsetInjective(t.shape, c, ix);
        assert false;
      }
      SumPoint(t.shape.Dim(axis), f, g, at, 0.0);
    }
  }

  /** After a whole pass every cell of the line has been counted. */
  lemma LineComplete(t: Tensor, q: Index, axis: int)
    requires t.Valid() && 0 <= axis < 5
    ensures Sum(t.shape.Dim(axis), Line(t, q, axis, t.shape.Size())) == AxisSum(t, q, axis)
  {
  }

  /**
   * One foreach pass of reduce_sum along `axis`: each input cell, in the
   * order of the five nested loops, is added into the output cell with the
   * same subscript pinned to 0 on `axis`. The output shape agrees with the
   * input's except along `axis`.
   */
  method AccumulatePass(t: Tensor, out: array<real>, o: Shape, axis: int)
    requires t.Valid() && o.Valid() && 0 <= axis < 5 && out.Length == o.Size()
    requires o == t.shape.With(axis, o.Dim(axis))
    modifies out
    ensures forall q | o.Contains(q) :: out[o.Offset(q)] == Accumulated(old(out[o.Offset(q)]), t, q, axis, t.shape.Size())
  {
    ghost var init := out[..];
    forall q | o.Contains(q)
      ensures Sum(t.shape.Dim(axis), Line(t, q, axis, 0)) == 0.0
    {
      SumZero(t.shape.Dim(axis), Line(t, q, axis, 0));
    }
    var n := 0;
    while n < t.shape.Size()
      invariant 0 <= n <= t.shape.Size()
      invariant forall q | o.Contains(q) :: out[o.Offset(q)] == Accumulated(init[o.Offset(q)], t, q, axis, n)
    {
      var ix := t.shape.Decode(n);
      var target := ix.With(axis, 0);
      assert o.Contains(target);
      forall q | o.Contains(q)
        ensures Accumulated(init[o.Offset(q)], t, q, axis, n + 1) ==
                Accumulated(init[o.Offset(q)], t, q, axis, n) + (if q == target then t.Get(ix) else 0.0)
      {
        if q.Get(axis) == 0 {
          LineStep(t, q, axis, n);
        }
      }
      forall q | o.Contains(q) && o.Offset(q) == o.Offset(target)
        ensures q == target
      {
        OffsetInjective(o, q, target);
      }
      out[o.Offset(target)] := out[o.Offset(target)] + t.Get(ix);
      n := n + 1;
    }
  }

  /**
   * Tensor::reduce_sum(axis): a zero tensor of the reduced shape, then the
   * pass of the axis's case; the sample case falls through into the frame
   * case's pass, and an axis without a case leaves the zeros.
   */
  method ReduceSum(t: Tensor, axis: int) returns (r: Tensor)
    requires t.Valid() && (axis == 0 ==> t.shape.d0 == 1)
    ensures r == ReduceSumAsWritten(t, axis)
  {
    var o := Reduced(t.shape, axis);
    var out := new real[o.Size()](_ => 0.0);
    if !(0 <= axis < 5) {
      r := Tensor(o, out[..]);
      assert r.data == Zeros(t.shape).data;
    } else if axis == 0 {
      assert o == t.shape;
      AccumulatePass(t, out, o, 0);
      ghost var first := out[..];
      AccumulatePass(t, out, o, 1);
      r := Tensor(o, out[..]);
      forall q | o.Contains(q)
        ensures r.Get(q) == ReduceSumAsWritten(t, axis).Get(q)
      {
        LineComplete(t, q, 0);
        LineComplete(t, q, 1);
        assert first[o.Offset(q)] == AxisSum(t, q, 0);
      }
    } else {
      AccumulatePass(t, out, o, axis);
      r := Tensor(o, out[..]);
      forall q | o.Contains(q)
        ensures r.Get(q) == ReduceSumAsWritten(t, axis).Get(q)
      {
        LineComplete(t, q, axis);
      }
    }
    Ext(r, ReduceSumAsWritten(t, axis));
  }

  /**
   * The missing `break`: over the (single) sample axis, reduce_sum keeps
   * each cell and adds, in frame 0, the sum over the frames as well.
   */
  lemma FallThroughCell(t: Tensor, q: Index)
    requires t.Valid() && t.shape.d0 == 1 && t.shape.Contains(q)
    ensures ReduceSumAsWritten(t, 0).Get(q) == t.Get(q) + (if q.i1 == 0 then SumAlong(t, 1).Get(q) else 0.0)
    ensures SumAlong(t, 0).Get(q) == t.Get(q)
  {
    assert Reduced(t.shape, 0) == t.shape;
    SumAlongSingleton(t, 0);
    if q.i1 == 0 {
      assert Reduced(t.shape, 1).Contains(q);
    }
  }

  /**
   * The fall-through pass needs a single sample: for sample 1 it reads and
   * writes output cell (1, 0, 0, 0, 0), whose linear index is past the end
   * of the one-sample output buffer.
   */
  lemma FallThroughWritesPastOutput(s: Shape)
    requires s.Valid() && s.d0 >= 2
    ensures s.Contains(Index(1, 0, 0, 0, 0))
    ensures Reduced(s, 0).Offset(Index(1, 0, 0, 0, 0)) >= Reduced(s, 0).Size()
  {
    var o := Reduced(s, 0);
    assert o == Shape(1, s.d1, s.d2, s.d3, s.d4);
    assert o.Offset(Index(1, 0, 0, 0, 0)) == ((s.d1 * s.d2) * s.d3) * s.d4;
  }

  /**
   * An input that shows the fall-through: for one sample of ones with d1
   * frames, reduce_sum over the sample axis puts 1 + d1 into frame 0 where
   * the sum over the one sample is 1.
   */
  lemma SampleCaseFallsThrough(s: Shape, q: Index)
    requires s.Valid() && s.d0 == 1 && s.Contains(q) && q.i1 == 0
    ensures ReduceSumAsWritten(Ones(s), 0).Get(q) == 1.0 + s.d1 as real
    ensures SumAlong(Ones(s), 0).Get(q) == 1.0
  {
    FallThroughCell(Ones(s), q);
    assert Reduced(s, 1).Contains(q);
    LineOfOnes(s, 1, q);
  }

  /** reduce_sum of a zero tensor is a zero tensor of the reduced shape. */
  lemma ReduceZeros(s: Shape, axis: int)
    requires s.Valid() && (axis == 0 ==> s.d0 == 1)
    ensures ReduceSumAsWritten(Zeros(s), axis) == Zeros(Reduced(s, axis))
  {
    var t := Zeros(s);
    forall q, a | 0 <= a < 5
      ensures Sum(s.Dim(a), Line(t, q, a, s.Size())) == 0.0
    {
      SumZero(s.Dim(a), Line(t, q, a, s.Size()));
    }
    Ext(ReduceSumAsWritten(t, axis), Zeros(Reduced(s, axis)));
  }

  /** The line through a cell of the reduced shape of a tensor of ones adds up to the axis length. */
  lemma LineOfOnes(s: Shape, axis: int, q: Index)
    requires s.Valid() && 0 <= axis < 5 && Reduced(s, axis).Contains(q)
    ensures AxisSum(Ones(s), q, axis) == s.Dim(axis) as real
  {
    var t := Ones(s);
    var f := Line(t, q, axis, s.Size());
    forall x | 0 <= x < s.Dim(axis)
      ensures f(x) == 1.0
    {
      WithInsideReduced(s, axis, q, x);
    }
    SumConstant(s.Dim(axis), f, 1.0);
  }

  /** Moving a cell of the reduced shape along the reduced axis stays inside the input shape. */
  lemma WithInsideReduced(s: Shape, axis: int, q: Index, x: int)
    requires s.Valid() && 0 <= axis < 5 && Reduced(s, axis).Contains(q) && 0 <= x < s.Dim(axis)
    ensures s.Contains(q.With(axis, x))
  {
    assert s.Contains(q.With(axis, 0));
  }

  /** Summing a tensor of ones along an axis counts the cells along it. */
  lemma SumAlongOnes(s: Shape, axis: int)
    requires s.Valid() && 0 <= axis < 5
    ensures SumAlong(Ones(s), axis) == Constant(Reduced(s, axis), s.Dim(axis) as real)
  {
    var o := Reduced(s, axis);
    forall q | o.Contains(q)
      ensures AxisSum(Ones(s), q, axis) == s.Dim(axis) as real
    {
      LineOfOnes(s, axis, q);
    }
    Ext(SumAlong(Ones(s), axis), Constant(o, s.Dim(axis) as real));
  }

  /** Summing along an axis of length 1 changes nothing. */
  lemma SumAlongSingleton(t: Tensor, axis: int)
    requires t.Valid() && 0 <= axis < 5 && t.shape.Dim(axis) == 1
    ensures SumAlong(t, axis) == t
  {
    var r := SumAlong(t, axis);
    assert Reduced(t.shape, axis) == t.shape by {
      assert forall a | 0 <= a < 5 :: Reduced(t.shape, axis).Dim(a) == t.shape.Dim(a);
      assert Reduced(t.shape, axis).Dim(0) == t.shape.Dim(0) && Reduced(t.shape, axis).Dim(1) == t.shape.Dim(1);
      assert Reduced(t.shape, axis).Dim(2) == t.shape.Dim(2) && Reduced(t.shape, axis).Dim(3) == t.shape.Dim(3);
    }
    forall q | t.shape.Contains(q)
      ensures r.Get(q) == t.Get(q)
    {
      assert q.With(axis, 0) == q;
    }
    Ext(r, t);
  }

  /**
   * Tensor::reduce_mean(axis) as intended: the sum along the axis divided by
   * the axis length. ReduceMeanAsWritten divides what reduce_sum returns.
   */
  function ReduceMean(t: Tensor, axis: int): (r: Tensor)
    requires t.Valid() && 0 <= axis < 5
    ensures r.Valid() && r.shape == Reduced(t.shape, axis)
  {
    ScalarRight(SumAlong(t, axis), Divide, t.shape.Dim(axis) as real)
  }

  /** The mean of a tensor of ones along any axis is a tensor of ones. */
  lemma ReduceMeanOnes(s: Shape, axis: int)
    requires s.Valid() && 0 <= axis < 5
    ensures ReduceMean(Ones(s), axis) == Ones(Reduced(s, axis))
  {
    var o := Reduced(s, axis);
    var d := s.Dim(axis) as real;
    SumAlongOnes(s, axis);
    var sum := SumAlong(Ones(s), axis);
    var r := ReduceMean(Ones(s), axis);
    forall i | 0 <= i < |r.data|
      ensures r.data[i] == 1.0
    {
      assert sum.data[i] == d;
      assert r.data[i] == sum.data[i] / d;
      DivSelf(d);
    }
    assert r.data == Ones(o).data;
  }

  /** Every mean lies between bounds that hold for every cell of the tensor. */
  lemma ReduceMeanBounded(t: Tensor, axis: int, lo: real, hi: real)
    requires t.Valid() && 0 <= axis < 5
    requires forall i | 0 <= i < |t.data| :: lo <= t.data[i] <= hi
    ensures forall i | 0 <= i < |ReduceMean(t, axis).data| :: lo <= ReduceMean(t, axis).data[i] <= hi
  {
    forall i | 0 <= i < |ReduceMean(t, axis).data|
      ensures lo <= ReduceMean(t, axis).data[i] <= hi
    {
      MeanCellBounded(t, axis, lo, hi, Reduced(t.shape, axis).Decode(i));
    }
  }

  lemma MeanCellBounded(t: Tensor, axis: int, lo: real, hi: real, q: Index)
    requires t.Valid() && 0 <= axis < 5 && Reduced(t.shape, axis).Contains(q)
    requires forall i | 0 <= i < |t.data| :: lo <= t.data[i] <= hi
    ensures lo <= ReduceMean(t, axis).Get(q) <= hi
  {
    var d := t.shape.Dim(axis);
    assert d >= 1 by {
      assert axis == 0 || axis == 1 || axis == 2 || axis == 3 || axis == 4;
    }
    LineBounded(t, axis, q, lo, hi);
    MeanOfBounded(d, Line(t, q, axis, t.shape.Size()), lo, hi);
    assert SumAlong(t, axis).Get(q) == AxisSum(t, q, axis);
  }

  lemma LineBounded(t: Tensor, axis: int, q: Index, lo: real, hi: real)
    requires t.Valid() && 0 <= axis < 5 && Reduced(t.shape, axis).Contains(q)
    requires forall i | 0 <= i < |t.data| :: lo <= t.data[i] <= hi
    ensures forall x | 0 <= x < t.shape.Dim(axis) :: lo <= Line(t, q, axis, t.shape.Size())(x) <= hi
  {
    var f := Line(t, q, axis, t.shape.Size());
    forall x | 0 <= x < t.shape.Dim(axis)
      ensures lo <= f(x) <= hi
    {
      var c := q.With(axis, x);
      WithInsideReduced(t.shape, axis, q, x);
      var k := t.shape.Offset(c);
      assert 0 <= k < |t.data|;
      assert f(x) == t.data[k];
    }
  }

  /** The mean of n >= 1 terms between lo and hi lies between lo and hi. */
  lemma MeanOfBounded(n: int, f: int -> real, lo: real, hi: real)
    requires n >= 1
    requires forall i | 0 <= i < n :: lo <= f(i) <= hi
    ensures lo <= Sum(n, f) / n as real <= hi
  {
    SumBounds(n, f, lo, hi);
    var x, d := Sum(n, f), n as real;
    assert x / d * d == x;
  }

  /**
   * Tensor::reduce_mean(axis) as written: what reduce_sum returns, the
   * fall-through of the sample case included, divided by the axis length.
   */
  function ReduceMeanAsWritten(t: Tensor, axis: int): (r: Tensor)
    requires t.Valid() && 0 <= axis < 5 && (axis == 0 ==> t.shape.d0 == 1)
    ensures r.Valid() && r.shape == Reduced(t.shape, axis)
  {
    ScalarRight(ReduceSumAsWritten(t, axis), Divide, t.shape.Dim(axis) as real)
  }

  /** Away from the sample axis the mean as written is the intended one. */
  lemma ReduceMeanAgrees(t: Tensor, axis: int)
    requires t.Valid() && 1 <= axis < 5
    ensures ReduceMeanAsWritten(t, axis) == ReduceMean(t, axis)
  {
  }

  /**
   * Over the sample axis of a one-sample tensor the intended mean is the
   * tensor itself, while the mean as written adds, in frame 0, the sum over
   * the frames.
   */
  lemma {:induction false} ReduceMeanFallsThrough(t: Tensor, q: Index)
    requires t.Valid() && t.shape.d0 == 1 && t.shape.Contains(q)
    ensures ReduceMeanAsWritten(t, 0).Get(q) == t.Get(q) + (if q.i1 == 0 then SumAlong(t, 1).Get(q) else 0.0)
    ensures ReduceMean(t, 0).Get(q) == t.Get(q)
  {
    FallThroughCell(t, q);
    assert Reduced(t.shape, 0) == t.shape;
    var k := t.shape.Offset(q);
    assert ReduceMeanAsWritten(t, 0).data[k] == ReduceSumAsWritten(t, 0).data[k] / 1.0;
    assert ReduceMean(t, 0).data[k] == SumAlong(t, 0).data[k] / 1.0;
  }

  /** An input that shows it: one sample of ones, whose frame-0 mean is 1 + d1 as written and 1 as intended. */
  lemma OnesMeanFallsThrough(s: Shape, q: Index)
    requires s.Valid() && s.d0 == 1 && s.Contains(q) && q.i1 == 0
    ensures ReduceMeanAsWritten(Ones(s), 0).Get(q) == 1.0 + s.d1 as real
    ensures ReduceMean(Ones(s), 0).Get(q) == 1.0
  {
    ReduceMeanFallsThrough(Ones(s), q);
    SampleCaseFallsThrough(s, q);
  }

  lemma DivSelf(d: real)
    requires d != 0.0
    ensures d / d == 1.0
  {
  }
}
