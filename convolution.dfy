/**
 * Tensor::conv2d and Tensor::conv3d: every filter (a sample of the filter
 * tensor) slides over the input with a stride, and output channel c holds
 * what the accumulation loop computed when it reached the last cell of
 * filter c, plus that filter's bias.
 *
 * The model states the loops as written and, beside them, the convolution
 * they evidently mean: the accumulator reset at every filter and, in three
 * dimensions, the height read taken from the output row.
 */
module Convolution {

  import opened Shapes
  import opened Tensors
  import opened Sums
  import Arith

  /** Integer division as C++ performs it: the quotient is truncated toward zero. */
  function CDiv(a: int, b: int): (q: int)
    requires b >= 1
    ensures q >= 0 <==> a > -b
  {
    if a >= 0 then a / b else -((-a) / b)
  }

  datatype ConvKind = TwoD | ThreeD

  /** The loops as the engine writes them, or the convolution they evidently mean. */
  datatype Variant = AsWritten | Intended

  /**
   * The output shape: samples of the input, then the number of window
   * positions along each convolved axis ((n - f) / stride + 1, truncated),
   * and one channel per filter. conv2d keeps the input's frames.
   */
  function OutShape(kind: ConvKind, xs: Shape, fs: Shape, stride: int): Shape
    requires stride >= 1
  {
    Shape(xs.d0,
          if kind == ThreeD then CDiv(xs.d1 - fs.d1, stride) + 1 else xs.d1,
          CDiv(xs.d2 - fs.d2, stride) + 1,
          CDiv(xs.d3 - fs.d3, stride) + 1,
          fs.d0)
  }

  /**
   * The input cell multiplied with filter cell `k` for output cell `o`.
   * conv2d reads the output's own frame and ignores the filter's frame;
   * conv3d as written takes the row from the output's column.
   */
  function Read(kind: ConvKind, v: Variant, o: Index, k: Index, stride: int): Index {
    var row := if kind == ThreeD && v == AsWritten then o.i2 else o.i3;
    Index(o.i0,
          if kind == ThreeD then o.i1 * stride + k.i1 else o.i1,
          o.i2 * stride + k.i2,
          row * stride + k.i3,
          k.i4)
  }

  /**
   * The operands fit: positive stride, a non-empty output, the read for the
   * last output cell and the last filter cell inside the input's buffer, and
   * a bias for every filter.
   */
  predicate Convolvable(kind: ConvKind, v: Variant, x: Tensor, f: Tensor, bias: Tensor, stride: int) {
    x.Valid() && f.Valid() && bias.Valid() && stride >= 1 &&
    OutShape(kind, x.shape, f.shape, stride).Valid() &&
    x.shape.Offset(Read(kind, v, OutShape(kind, x.shape, f.shape, stride).Last(), f.shape.Last(), stride)) < |x.data| &&
    bias.shape.Offset(Index(0, 0, 0, 0, f.shape.d0 - 1)) < |bias.data|
  }

  /** Every read of the convolution lands in the input's buffer. */
  lemma ReadInside(kind: ConvKind, v: Variant, x: Tensor, f: Tensor, bias: Tensor, stride: int, o: Index, k: Index)
    requires Convolvable(kind, v, x, f, bias, stride)
    requires OutShape(kind, x.shape, f.shape, stride).Contains(o) && f.shape.Contains(k)
    ensures x.Readable(Read(kind, v, o, k, stride))
  {
    var last := OutShape(kind, x.shape, f.shape, stride).Last();
    Arith.MulLe(0, o.i1, stride);
    Arith.MulLe(o.i1, last.i1, stride);
    Arith.MulLe(0, o.i2, stride);
    Arith.MulLe(o.i2, last.i2, stride);
    Arith.MulLe(0, o.i3, stride);
    Arith.MulLe(o.i3, last.i3, stride);
    OffsetMonotone(x.shape, Read(kind, v, o, k, stride), Read(kind, v, last, f.shape.Last(), stride));
  }

  /** Tensor::at(l) on the bias reads its l-th cell, for every filter l. */
  lemma BiasInside(kind: ConvKind, v: Variant, x: Tensor, f: Tensor, bias: Tensor, stride: int, c: int)
    requires Convolvable(kind, v, x, f, bias, stride) && 0 <= c < f.shape.d0
    ensures bias.Readable(Index(0, 0, 0, 0, c))
  {
    OffsetMonotone(bias.shape, Index(0, 0, 0, 0, c), Index(0, 0, 0, 0, f.shape.d0 - 1));
  }

  /** The product added for filter cell `n` (in the filter's row-major order) at output cell `o`. */
  function Term(kind: ConvKind, v: Variant, x: Tensor, f: Tensor, stride: int, o: Index): int -> real
    requires f.Valid()
  {
    n => if 0 <= n < f.shape.Size() && x.Readable(Read(kind, v, o, f.shape.Decode(n), stride))
         then Mul(x.Get(Read(kind, v, o, f.shape.Decode(n), stride)), f.data[n])
         else 0.0
  }

  /** The terms of filter c: the cells c * count .. c * count + count - 1 of the filter's buffer. */
  function FilterTerms(kind: ConvKind, v: Variant, x: Tensor, f: Tensor, stride: int, o: Index, c: int): int -> real
    requires f.Valid()
  {
    Shifted(Term(kind, v, x, f, stride, o), c * f.shape.Stride(0))
  }

  /** The dot product of filter c with the window of output cell `o`. */
  function Dot(kind: ConvKind, v: Variant, x: Tensor, f: Tensor, stride: int, o: Index, c: int): real
    requires f.Valid()
  {
    Sum(f.shape.Stride(0), FilterTerms(kind, v, x, f, stride, o, c))
  }

  /** The dot products of all filters, as a function of the filter. */
  function Dots(kind: ConvKind, v: Variant, x: Tensor, f: Tensor, stride: int, o: Index): int -> real
    requires f.Valid()
  {
    c => Dot(kind, v, x, f, stride, o, c)
  }

  /**
   * Output cell q. As written, the accumulator runs on over the filters, so
   * channel c holds the sum of the first (c + 1) * count terms; as intended
   * it holds filter c's own dot product. Both add bias c.
   */
  function Cell(kind: ConvKind, v: Variant, x: Tensor, f: Tensor, bias: Tensor, stride: int, q: Index): real
    requires Convolvable(kind, v, x, f, bias, stride)
    requires OutShape(kind, x.shape, f.shape, stride).Contains(q)
  {
    BiasInside(kind, v, x, f, bias, stride, q.i4);
    var o := q.With(4, 0);
    (match v
     case AsWritten => Sum((q.i4 + 1) * f.shape.Stride(0), Term(kind, v, x, f, stride, o))
     case Intended => Dot(kind, v, x, f, stride, o, q.i4))
    + bias.Get(Index(0, 0, 0, 0, q.i4))
  }

  /** The convolution: the output tensor whose every cell is Cell. */
  function Conv(kind: ConvKind, v: Variant, x: Tensor, f: Tensor, bias: Tensor, stride: int): (r: Tensor)
    requires Convolvable(kind, v, x, f, bias, stride)
    ensures r.Valid() && r.shape == OutShape(kind, x.shape, f.shape, stride)
  {
    var s := OutShape(kind, x.shape, f.shape, stride);
    Build(s, (q: Index) requires s.Contains(q) => Cell(kind, v, x, f, bias, stride, q))
  }

  /** Cell q of the convolution. */
  lemma ConvCell(kind: ConvKind, v: Variant, x: Tensor, f: Tensor, bias: Tensor, stride: int, q: Index)
    requires Convolvable(kind, v, x, f, bias, stride)
    requires OutShape(kind, x.shape, f.shape, stride).Contains(q)
    ensures Conv(kind, v, x, f, bias, stride).Get(q) == Cell(kind, v, x, f, bias, stride, q)
  {
  }

  /** Buffer index n = row * count + m, with m < count, lies in filter `row`. */
  lemma FilterOfIndex(f: Shape, n: int, row: int, m: int)
    requires f.Valid() && 0 <= n < f.Size()
    requires 0 <= m < f.Stride(0) && n == row * f.Stride(0) + m
    ensures f.Decode(n).i0 == row
  {
    var ix := f.Decode(n);
    var rest := ix.With(0, 0);
    OffsetShift(f, rest, 0, ix.i0);
    assert rest.With(0, ix.i0) == ix;
    var plane := f.With(0, 1);
    assert plane.Contains(rest);
    assert plane.Offset(rest) == f.Offset(rest);
    Arith.DigitUnique(ix.i0, f.Offset(rest), f.Stride(0));
    Arith.DigitUnique(row, m, f.Stride(0));
  }

  /** Filter cell n's term at output position o: its input cell times the filter cell. */
  lemma TermAt(kind: ConvKind, v: Variant, x: Tensor, f: Tensor, bias: Tensor, stride: int, o: Index, n: int)
    requires Convolvable(kind, v, x, f, bias, stride)
    requires OutShape(kind, x.shape, f.shape, stride).Contains(o) && 0 <= n < f.shape.Size()
    ensures x.Readable(Read(kind, v, o, f.shape.Decode(n), stride))
    ensures f.Get(f.shape.Decode(n)) == f.data[n]
    ensures Term(kind, v, x, f, stride, o)(n) == Mul(x.Get(Read(kind, v, o, f.shape.Decode(n), stride)), f.data[n])
  {
    ReadInside(kind, v, x, f, bias, stride, o, f.shape.Decode(n));
  }

  /** What the filter pass stores in channel c of output position o: the first (c + 1) * count terms plus bias c. */
  ghost function ChannelValue(kind: ConvKind, x: Tensor, f: Tensor, bias: Tensor, stride: int, o: Index, c: int): real
    requires Convolvable(kind, AsWritten, x, f, bias, stride) && 0 <= c < f.shape.d0
  {
    BiasInside(kind, AsWritten, x, f, bias, stride, c);
    Sum((c + 1) * f.shape.Stride(0), Term(kind, AsWritten, x, f, stride, o)) + bias.Get(Index(0, 0, 0, 0, c))
  }

  /** Cell q of the convolution as written is ChannelValue of its position and channel. */
  lemma CellIsChannelValue(kind: ConvKind, x: Tensor, f: Tensor, bias: Tensor, stride: int, q: Index)
    requires Convolvable(kind, AsWritten, x, f, bias, stride)
    requires OutShape(kind, x.shape, f.shape, stride).Contains(q)
    ensures Cell(kind, AsWritten, x, f, bias, stride, q) == ChannelValue(kind, x, f, bias, stride, q.With(4, 0), q.i4)
  {
  }

  /** Channel c of output position o (its channel-0 cell) is the cell c places after it, and holds ChannelValue. */
  lemma ChannelCell(kind: ConvKind, x: Tensor, f: Tensor, bias: Tensor, stride: int, o: Index, c: int)
    requires Convolvable(kind, AsWritten, x, f, bias, stride)
    requires OutShape(kind, x.shape, f.shape, stride).Contains(o) && o.i4 == 0 && 0 <= c < f.shape.d0
    ensures OutShape(kind, x.shape, f.shape, stride).Offset(o) + c < OutShape(kind, x.shape, f.shape, stride).Size()
    ensures Conv(kind, AsWritten, x, f, bias, stride).data[OutShape(kind, x.shape, f.shape, stride).Offset(o) + c]
            == ChannelValue(kind, x, f, bias, stride, o, c)
  {
    var s := OutShape(kind, x.shape, f.shape, stride);
    OffsetShift(s, o, 4, c);
    var q := o.With(4, c);
    assert s.Contains(q) && q.With(4, 0) == o && q.i4 == c;
    ConvCell(kind, AsWritten, x, f, bias, stride, q);
    CellIsChannelValue(kind, x, f, bias, stride, q);
  }

  /** One step of the filter pass: the input cell under filter cell n times that filter cell, added to the value. */
  method AddTerm(kind: ConvKind, x: Tensor, f: Tensor, bias: Tensor, stride: int, o: Index, n: int, value: real)
    returns (value': real)
    requires Convolvable(kind, AsWritten, x, f, bias, stride)
    requires OutShape(kind, x.shape, f.shape, stride).Contains(o) && 0 <= n < f.shape.Size()
    requires value == Sum(n, Term(kind, AsWritten, x, f, stride, o))
    ensures value' == Sum(n + 1, Term(kind, AsWritten, x, f, stride, o))
  {
    var k := f.shape.Decode(n);
    TermAt(kind, AsWritten, x, f, bias, stride, o, n);
    var a := x.Get(Read(kind, AsWritten, o, k, stride));
    var b := f.Get(k);
    value' := value + Mul(a, b);
  }

  /**
   * The store after the last cell of filter `row` (buffer index n): value
   * plus bias `row` goes to channel `row` of output position o, the cell
   * `row` places after o's own.
   */
  method StoreChannel(kind: ConvKind, x: Tensor, f: Tensor, bias: Tensor, stride: int, o: Index,
                      out: array<real>, n: int, ghost row: int, value: real)
    requires Convolvable(kind, AsWritten, x, f, bias, stride)
    requires OutShape(kind, x.shape, f.shape, stride).Contains(o) && o.i4 == 0
    requires out.Length == OutShape(kind, x.shape, f.shape, stride).Size()
    requires 0 <= n < f.shape.Size() && 0 <= row && n == row * f.shape.Stride(0) + f.shape.Stride(0) - 1
    requires value == Sum(n + 1, Term(kind, AsWritten, x, f, stride, o))
    modifies out
    ensures row < f.shape.d0
    ensures forall i | 0 <= i < out.Length ::
              out[i] == if i == OutShape(kind, x.shape, f.shape, stride).Offset(o) + row
                        then ChannelValue(kind, x, f, bias, stride, o, row) else old(out[i])
  {
    var s := OutShape(kind, x.shape, f.shape, stride);
    var count := f.shape.Stride(0);
    StridesPositive(f.shape);
    var ki := f.shape.Decode(n).i0;
    FilterOfIndex(f.shape, n, row, count - 1);
    assert n + 1 == (row + 1) * count by {
      Arith.MulSub(row + 1, row, count);
    }
    BiasInside(kind, AsWritten, x, f, bias, stride, ki);
    OffsetShift(s, o, 4, ki);
    assert s.Contains(o.With(4, ki));
    out[s.Offset(o.With(4, ki))] := value + bias.Get(Index(0, 0, 0, 0, ki));
  }

  /**
   * The state of the filter pass of output position o after n filter
   * cells: `row` filters finished, `index` counting the cells of the
   * current one from 1, the running value, and the first `row` channels of
   * o stored, every other cell as it was before the pass.
   */
  ghost predicate Pass(kind: ConvKind, x: Tensor, f: Tensor, bias: Tensor, stride: int, o: Index,
                       cur: seq<real>, before: seq<real>, n: int, index: int, row: int, value: real)
    requires Convolvable(kind, AsWritten, x, f, bias, stride)
  {
    var s := OutShape(kind, x.shape, f.shape, stride);
    0 <= n <= f.shape.Size() && 0 <= row <= f.shape.d0 &&
    1 <= index <= f.shape.Stride(0) && n == row * f.shape.Stride(0) + index - 1 &&
    value == Sum(n, Term(kind, AsWritten, x, f, stride, o)) &&
    |cur| == |before| == s.Size() &&
    forall i | 0 <= i < |cur| ::
      cur[i] == if s.Offset(o) <= i < s.Offset(o) + row then ChannelValue(kind, x, f, bias, stride, o, i - s.Offset(o)) else before[i]
  }

  /**
   * The body of the filter pass for filter cell n: add its product to the
   * value; if it is the count-th cell of its filter, store the value plus
   * the filter's bias in the filter's channel and restart the count.
   */
  method FilterStep(kind: ConvKind, x: Tensor, f: Tensor, bias: Tensor, stride: int, o: Index, out: array<real>,
                    ghost before: seq<real>, n: int, index: int, ghost row: int, value: real)
    returns (index': int, ghost row': int, value': real)
    requires Convolvable(kind, AsWritten, x, f, bias, stride)
    requires OutShape(kind, x.shape, f.shape, stride).Contains(o) && o.i4 == 0
    requires Pass(kind, x, f, bias, stride, o, out[..], before, n, index, row, value) && n < f.shape.Size()
    modifies out
    ensures Pass(kind, x, f, bias, stride, o, out[..], before, n + 1, index', row', value')
  {
    ghost var prev := out[..];
    value' := AddTerm(kind, x, f, bias, stride, o, n, value);
    if index == f.shape.Stride(0) {
      StoreChannel(kind, x, f, bias, stride, o, out, n, row, value');
      index', row' := 1, row + 1;
      PassStored(kind, x, f, bias, stride, o, prev, out[..], before, n, row, value, value');
    } else {
      index', row' := index + 1, row;
    }
  }

  /** Storing channel `row` after the last cell of filter `row` keeps Pass, with the next filter begun. */
  lemma PassStored(kind: ConvKind, x: Tensor, f: Tensor, bias: Tensor, stride: int, o: Index,
                   prev: seq<real>, cur: seq<real>, before: seq<real>, n: int, row: int, value: real, value': real)
    requires Convolvable(kind, AsWritten, x, f, bias, stride)
    requires Pass(kind, x, f, bias, stride, o, prev, before, n, f.shape.Stride(0), row, value) && n < f.shape.Size()
    requires value' == Sum(n + 1, Term(kind, AsWritten, x, f, stride, o)) && row < f.shape.d0
    requires |cur| == |prev|
    requires forall i | 0 <= i < |cur| ::
               cur[i] == if i == OutShape(kind, x.shape, f.shape, stride).Offset(o) + row
                         then ChannelValue(kind, x, f, bias, stride, o, row) else prev[i]
    ensures Pass(kind, x, f, bias, stride, o, cur, before, n + 1, 1, row + 1, value')
  {
    assert n + 1 == (row + 1) * f.shape.Stride(0) + 1 - 1 by {
      Arith.MulSub(row + 1, row, f.shape.Stride(0));
    }
  }

  /** A finished pass has stored every channel of position o. */
  lemma PassDone(kind: ConvKind, x: Tensor, f: Tensor, bias: Tensor, stride: int, o: Index,
                 cur: seq<real>, before: seq<real>, index: int, row: int, value: real)
    requires Convolvable(kind, AsWritten, x, f, bias, stride)
    requires Pass(kind, x, f, bias, stride, o, cur, before, f.shape.Size(), index, row, value)
    ensures row == f.shape.d0
  {
    StridesPositive(f.shape);
    SizeBySamples(f.shape);
    Arith.DigitMultiple(row, index - 1, f.shape.d0, f.shape.Stride(0));
  }

  /**
   * The filter pass of one output position o (its channel-0 cell): the
   * filter is visited in row-major order by FilterStep. The value is never
   * reset. Channel c of o is the cell c places after o's own.
   */
  method FilterPass(kind: ConvKind, x: Tensor, f: Tensor, bias: Tensor, stride: int, o: Index, out: array<real>)
    requires Convolvable(kind, AsWritten, x, f, bias, stride)
    requires OutShape(kind, x.shape, f.shape, stride).Contains(o) && o.i4 == 0
    requires out.Length == OutShape(kind, x.shape, f.shape, stride).Size()
    modifies out
    ensures forall i | 0 <= i < out.Length ::
              out[i] == if OutShape(kind, x.shape, f.shape, stride).Offset(o) <= i < OutShape(kind, x.shape, f.shape, stride).Offset(o) + f.shape.d0
                        then ChannelValue(kind, x, f, bias, stride, o, i - OutShape(kind, x.shape, f.shape, stride).Offset(o))
                        else old(out[i])
  {
    ghost var before := out[..];
    assert f.shape.Stride(0) >= 1 by {
      StridesPositive(f.shape);
    }
    var index := 1;
    var value := 0.0;
    ghost var row := 0;
    var n := 0;
    while n < f.shape.Size()
      invariant Pass(kind, x, f, bias, stride, o, out[..], before, n, index, row, value)
    {
      index, row, value := FilterStep(kind, x, f, bias, stride, o, out, before, n, index, row, value);
      n := n + 1;
    }
    PassDone(kind, x, f, bias, stride, o, out[..], before, index, row, value);
  }

  /** i - i % d is the start of i's run of d cells: the runs are [j, j + d) for the multiples j of d. */
  lemma RunStart(d: int, j: int, i: int)
    requires d >= 1 && 0 <= i && 0 <= j
    ensures (i - i % d == j) <==> (j % d == 0 && j <= i < j + d)
  {
    Arith.DivMod(i, d);
    Arith.DivMod(j, d);
    if i - i % d == j {
      Arith.DigitUnique(i / d, 0, d);
    }
    if j % d == 0 && j <= i < j + d {
      Arith.DigitUnique(j / d, i - j, d);
    }
  }

  /** Cell j of an output shape is a channel-0 cell exactly when j is a multiple of d4. */
  lemma ChannelStart(s: Shape, j: int)
    requires s.Valid() && 0 <= j < s.Size()
    ensures (s.Decode(j).i4 == 0) == (j % s.d4 == 0)
  {
  }

  /** The output buffer once the outer pass has reached cell j: every channel of the positions before j is stored. */
  ghost predicate Filled(kind: ConvKind, x: Tensor, f: Tensor, bias: Tensor, stride: int, cur: seq<real>, j: int)
    requires Convolvable(kind, AsWritten, x, f, bias, stride)
  {
    var s := OutShape(kind, x.shape, f.shape, stride);
    |cur| == s.Size() &&
    forall i | 0 <= i < |cur| ::
      cur[i] == if i - i % s.d4 < j then Conv(kind, AsWritten, x, f, bias, stride).data[i] else 0.0
  }

  /** Cell i of the output before and after the step for cell j of the outer pass. */
  lemma StepCell(kind: ConvKind, x: Tensor, f: Tensor, bias: Tensor, stride: int, j: int, i: int, before: real, after: real)
    requires Convolvable(kind, AsWritten, x, f, bias, stride)
    requires 0 <= j < OutShape(kind, x.shape, f.shape, stride).Size() && 0 <= i < OutShape(kind, x.shape, f.shape, stride).Size()
    requires before == if i - i % OutShape(kind, x.shape, f.shape, stride).d4 < j
                       then Conv(kind, AsWritten, x, f, bias, stride).data[i] else 0.0
    requires after == if OutShape(kind, x.shape, f.shape, stride).Decode(j).i4 == 0 && j <= i < j + f.shape.d0
                      then ChannelValue(kind, x, f, bias, stride, OutShape(kind, x.shape, f.shape, stride).Decode(j), i - j)
                      else before
    ensures after == if i - i % OutShape(kind, x.shape, f.shape, stride).d4 < j + 1
                     then Conv(kind, AsWritten, x, f, bias, stride).data[i] else 0.0
  {
    var s := OutShape(kind, x.shape, f.shape, stride);
    ChannelStart(s, j);
    RunStart(s.d4, j, i);
    if s.Decode(j).i4 == 0 && j <= i < j + s.d4 {
      ChannelCell(kind, x, f, bias, stride, s.Decode(j), i - j);
    }
  }

  /** The step for cell j of the outer pass extends the filled prefix by one cell. */
  lemma StepFilled(kind: ConvKind, x: Tensor, f: Tensor, bias: Tensor, stride: int, j: int, prev: seq<real>, cur: seq<real>)
    requires Convolvable(kind, AsWritten, x, f, bias, stride)
    requires 0 <= j < OutShape(kind, x.shape, f.shape, stride).Size()
    requires Filled(kind, x, f, bias, stride, prev, j) && |cur| == |prev|
    requires forall i | 0 <= i < |cur| ::
               cur[i] == if OutShape(kind, x.shape, f.shape, stride).Decode(j).i4 == 0 && j <= i < j + f.shape.d0
                         then ChannelValue(kind, x, f, bias, stride, OutShape(kind, x.shape, f.shape, stride).Decode(j), i - j)
                         else prev[i]
    ensures Filled(kind, x, f, bias, stride, cur, j + 1)
  {
    forall i | 0 <= i < |cur|
      ensures cur[i] == if i - i % OutShape(kind, x.shape, f.shape, stride).d4 < j + 1
                        then Conv(kind, AsWritten, x, f, bias, stride).data[i] else 0.0
    {
      StepCell(kind, x, f, bias, stride, j, i, prev[i], cur[i]);
    }
  }

  /** The body of the outer pass for output cell j: the filter pass, when j is a channel-0 cell. */
  method OutputStep(kind: ConvKind, x: Tensor, f: Tensor, bias: Tensor, stride: int, out: array<real>, j: int)
    requires Convolvable(kind, AsWritten, x, f, bias, stride)
    requires 0 <= j < OutShape(kind, x.shape, f.shape, stride).Size()
    requires Filled(kind, x, f, bias, stride, out[..], j)
    modifies out
    ensures Filled(kind, x, f, bias, stride, out[..], j + 1)
  {
    var s := OutShape(kind, x.shape, f.shape, stride);
    var o := s.Decode(j);
    ghost var prev := out[..];
    if o.i4 == 0 {
      FilterPass(kind, x, f, bias, stride, o, out);
    }
    StepFilled(kind, x, f, bias, stride, j, prev, out[..]);
  }

  /**
   * Tensor::conv2d and Tensor::conv3d: a zero output, then one pass over it
   * in foreach order that runs the filter pass at every cell of channel 0
   * (every d4-th cell, channels being innermost).
   */
  method ConvLoop(kind: ConvKind, x: Tensor, f: Tensor, bias: Tensor, stride: int) returns (r: Tensor)
    requires Convolvable(kind, AsWritten, x, f, bias, stride)
    ensures r == Conv(kind, AsWritten, x, f, bias, stride)
  {
    var s := OutShape(kind, x.shape, f.shape, stride);
    var out := new real[s.Size()](_ => 0.0);
    forall i | 0 <= i < out.Length
      ensures 0 <= i - i % s.d4 <= i
    {
      RunStart(s.d4, 0, i);
      Arith.DivMod(i, s.d4);
    }
    var j := 0;
    while j < s.Size()
      invariant 0 <= j <= s.Size()
      invariant Filled(kind, x, f, bias, stride, out[..], j)
    {
      OutputStep(kind, x, f, bias, stride, out, j);
      j := j + 1;
    }
    r := Tensor(s, out[..]);
  }

  /**
   * Along a convolved axis the output counts the window positions: the
   * last window lies inside the input, and one stride further would not.
   */
  lemma WindowsFit(kind: ConvKind, xs: Shape, fs: Shape, stride: int, axis: int)
    requires stride >= 1 && (axis == 2 || axis == 3 || (axis == 1 && kind == ThreeD))
    requires xs.Dim(axis) >= fs.Dim(axis)
    ensures var w := OutShape(kind, xs, fs, stride).Dim(axis);
            (w - 1) * stride + fs.Dim(axis) <= xs.Dim(axis) < w * stride + fs.Dim(axis)
  {
    var a := xs.Dim(axis) - fs.Dim(axis);
    Arith.DivMod(a, stride);
    Arith.MulSub(a / stride + 1, a / stride, stride);
  }

  /** The first c * count terms of the running value are the dot products of filters 0 .. c-1. */
  lemma FilterPrefix(kind: ConvKind, v: Variant, x: Tensor, f: Tensor, stride: int, o: Index, c: int)
    requires f.Valid() && c >= 0
    ensures Sum(c * f.shape.Stride(0), Term(kind, v, x, f, stride, o)) == Sum(c, Dots(kind, v, x, f, stride, o))
  {
    StridesPositive(f.shape);
    SumBlocks(c, f.shape.Stride(0), Term(kind, v, x, f, stride, o), Dots(kind, v, x, f, stride, o));
  }

  /** ChannelValue is the running total of the dot products of filters 0 .. c, plus bias c. */
  lemma ChannelTotal(kind: ConvKind, x: Tensor, f: Tensor, bias: Tensor, stride: int, o: Index, c: int)
    requires Convolvable(kind, AsWritten, x, f, bias, stride) && 0 <= c < f.shape.d0
    ensures bias.Readable(Index(0, 0, 0, 0, c))
    ensures ChannelValue(kind, x, f, bias, stride, o, c)
            == Sum(c + 1, Dots(kind, AsWritten, x, f, stride, o)) + bias.Get(Index(0, 0, 0, 0, c))
  {
    BiasInside(kind, AsWritten, x, f, bias, stride, c);
    FilterPrefix(kind, AsWritten, x, f, stride, o, c + 1);
  }

  /**
   * As written, channel c of every output position holds the running total
   * of the dot products of filters 0 .. c with its window, plus bias c:
   * the value is never reset between filters.
   */
  lemma RunningTotal(kind: ConvKind, x: Tensor, f: Tensor, bias: Tensor, stride: int, q: Index)
    requires Convolvable(kind, AsWritten, x, f, bias, stride)
    requires OutShape(kind, x.shape, f.shape, stride).Contains(q)
    ensures bias.Readable(Index(0, 0, 0, 0, q.i4))
    ensures Conv(kind, AsWritten, x, f, bias, stride).Get(q)
            == Sum(q.i4 + 1, Dots(kind, AsWritten, x, f, stride, q.With(4, 0))) + bias.Get(Index(0, 0, 0, 0, q.i4))
  {
    BiasInside(kind, AsWritten, x, f, bias, stride, q.i4);
    ConvCell(kind, AsWritten, x, f, bias, stride, q);
    CellIsChannelValue(kind, x, f, bias, stride, q);
    ChannelTotal(kind, x, f, bias, stride, q.With(4, 0), q.i4);
  }

  /** Cell q of the convolution as written, as the stored value of its position and channel. */
  lemma WrittenCell(kind: ConvKind, x: Tensor, f: Tensor, bias: Tensor, stride: int, q: Index)
    requires Convolvable(kind, AsWritten, x, f, bias, stride)
    requires OutShape(kind, x.shape, f.shape, stride).Contains(q)
    ensures Conv(kind, AsWritten, x, f, bias, stride).Get(q) == ChannelValue(kind, x, f, bias, stride, q.With(4, 0), q.i4)
  {
    ConvCell(kind, AsWritten, x, f, bias, stride, q);
    CellIsChannelValue(kind, x, f, bias, stride, q);
  }

  /** Cell q of the intended convolution: filter q.i4's dot product with the window, plus its bias. */
  lemma IntendedCell(kind: ConvKind, x: Tensor, f: Tensor, bias: Tensor, stride: int, q: Index)
    requires Convolvable(kind, Intended, x, f, bias, stride)
    requires OutShape(kind, x.shape, f.shape, stride).Contains(q)
    ensures bias.Readable(Index(0, 0, 0, 0, q.i4))
    ensures Conv(kind, Intended, x, f, bias, stride).Get(q)
            == Dot(kind, Intended, x, f, stride, q.With(4, 0), q.i4) + bias.Get(Index(0, 0, 0, 0, q.i4))
  {
    BiasInside(kind, Intended, x, f, bias, stride, q.i4);
    ConvCell(kind, Intended, x, f, bias, stride, q);
  }

  /** In two dimensions the operands fit the loops as written exactly when they fit the intended ones. */
  lemma Convolvable2D(x: Tensor, f: Tensor, bias: Tensor, stride: int)
    ensures Convolvable(TwoD, AsWritten, x, f, bias, stride) == Convolvable(TwoD, Intended, x, f, bias, stride)
  {
    if stride >= 1 {
      var last := OutShape(TwoD, x.shape, f.shape, stride).Last();
      assert Read(TwoD, AsWritten, last, f.shape.Last(), stride) == Read(TwoD, Intended, last, f.shape.Last(), stride);
    }
  }

  /** In two dimensions the loops as written and as intended read the same cells. */
  lemma SameReads2D(x: Tensor, f: Tensor, stride: int, o: Index, c: int)
    requires f.Valid()
    ensures Dot(TwoD, AsWritten, x, f, stride, o, c) == Dot(TwoD, Intended, x, f, stride, o, c)
  {
    forall m | 0 <= m < f.shape.Stride(0)
      ensures FilterTerms(TwoD, AsWritten, x, f, stride, o, c)(m) == FilterTerms(TwoD, Intended, x, f, stride, o, c)(m)
    {
      var n := c * f.shape.Stride(0) + m;
      if 0 <= n < f.shape.Size() {
        assert Read(TwoD, AsWritten, o, f.shape.Decode(n), stride) == Read(TwoD, Intended, o, f.shape.Decode(n), stride);
      }
    }
    SumExt(f.shape.Stride(0), FilterTerms(TwoD, AsWritten, x, f, stride, o, c), FilterTerms(TwoD, Intended, x, f, stride, o, c));
  }

  /**
   * conv2d as written: what the loop stores in channel c of a position is
   * what it stored in channel c-1, less bias c-1, plus the intended output
   * of filter c (its own dot product with the window and its bias).
   * ChannelCell and IntendedCell carry this over to the two convolutions.
   */
  lemma ChannelCarries2D(x: Tensor, f: Tensor, bias: Tensor, stride: int, o: Index, c: int)
    requires Convolvable(TwoD, AsWritten, x, f, bias, stride) && 1 <= c < f.shape.d0
    ensures bias.Readable(Index(0, 0, 0, 0, c - 1)) && bias.Readable(Index(0, 0, 0, 0, c))
    ensures ChannelValue(TwoD, x, f, bias, stride, o, c)
            == ChannelValue(TwoD, x, f, bias, stride, o, c - 1) - bias.Get(Index(0, 0, 0, 0, c - 1))
               + Dot(TwoD, Intended, x, f, stride, o, c) + bias.Get(Index(0, 0, 0, 0, c))
  {
    var dots := Dots(TwoD, AsWritten, x, f, stride, o);
    ChannelTotal(TwoD, x, f, bias, stride, o, c);
    ChannelTotal(TwoD, x, f, bias, stride, o, c - 1);
    assert Sum(c + 1, dots) == Sum(c, dots) + dots(c);
    SameReads2D(x, f, stride, o, c);
  }

  /** The input cell a one-cell filter meets at output cell o (channel 0): o itself, or as written in 3D the column repeated as the row. */
  function PointRead(kind: ConvKind, v: Variant, o: Index): Index {
    if kind == ThreeD && v == AsWritten then o.With(3, o.i2) else o
  }

  /**
   * n filters of one cell each, n biases, stride 1, on a one-channel input
   * (in three dimensions no wider than high): the output keeps the input's
   * leading axes, has n channels, and both loops stay inside the buffers.
   */
  lemma PointFits(kind: ConvKind, x: Tensor, f: Tensor, b: Tensor)
    requires x.Valid() && f.Valid() && b.Valid() && x.shape.d4 == 1
    requires f.shape == Shape(f.shape.d0, 1, 1, 1, 1) && b.shape == Shape(1, 1, 1, 1, f.shape.d0)
    ensures OutShape(kind, x.shape, f.shape, 1) == Shape(x.shape.d0, x.shape.d1, x.shape.d2, x.shape.d3, f.shape.d0)
    ensures Convolvable(kind, Intended, x, f, b, 1)
    ensures kind == TwoD || x.shape.d2 <= x.shape.d3 ==> Convolvable(kind, AsWritten, x, f, b, 1)
  {
    var s, n := x.shape, f.shape.d0;
    var out := Shape(s.d0, s.d1, s.d2, s.d3, n);
    assert OutShape(kind, s, f.shape, 1) == out;
    var last := out.Last();
    assert Read(kind, AsWritten, last, f.shape.Last(), 1) == PointRead(kind, AsWritten, s.Last());
    assert Read(kind, Intended, last, f.shape.Last(), 1) == s.Last();
    assert s.Contains(s.Last());
    assert kind == TwoD || s.d2 <= s.d3 ==> s.Contains(PointRead(kind, AsWritten, s.Last()));
    assert b.shape.Contains(Index(0, 0, 0, 0, n - 1));
  }

  /** With one-cell filters, filter c's dot product is the cell PointRead times filter cell c. */
  lemma PointDot(kind: ConvKind, v: Variant, x: Tensor, f: Tensor, b: Tensor, o: Index, c: int)
    requires Convolvable(kind, v, x, f, b, 1) && f.shape == Shape(f.shape.d0, 1, 1, 1, 1)
    requires OutShape(kind, x.shape, f.shape, 1).Contains(o) && o.i4 == 0 && 0 <= c < f.shape.d0
    ensures x.Readable(PointRead(kind, v, o)) && f.shape.Contains(Index(c, 0, 0, 0, 0))
    ensures Dot(kind, v, x, f, 1, o, c) == Mul(x.Get(PointRead(kind, v, o)), f.Get(Index(c, 0, 0, 0, 0)))
  {
    assert f.shape.Stride(0) == 1;
    assert f.shape.Decode(c) == Index(c, 0, 0, 0, 0);
    assert Read(kind, v, o, Index(c, 0, 0, 0, 0), 1) == PointRead(kind, v, o);
    TermAt(kind, v, x, f, b, 1, o, c);
    assert Sum(1, FilterTerms(kind, v, x, f, 1, o, c)) == Term(kind, v, x, f, 1, o)(c);
  }

  /**
   * The accumulator as written, on an input of ones (one channel), n
   * one-cell filters of ones and zero biases: channel c of every output
   * cell is c + 1, where the convolution with filter c is 1.
   */
  lemma AccumulatorNotReset(s: Shape, n: int, q: Index)
    requires s.Valid() && s.d4 == 1 && n >= 1
    requires Shape(s.d0, s.d1, s.d2, s.d3, n).Contains(q)
    ensures OutShape(TwoD, s, Shape(n, 1, 1, 1, 1), 1) == Shape(s.d0, s.d1, s.d2, s.d3, n)
    ensures Convolvable(TwoD, AsWritten, Ones(s), Ones(Shape(n, 1, 1, 1, 1)), Zeros(Shape(1, 1, 1, 1, n)), 1)
    ensures Convolvable(TwoD, Intended, Ones(s), Ones(Shape(n, 1, 1, 1, 1)), Zeros(Shape(1, 1, 1, 1, n)), 1)
    ensures Conv(TwoD, AsWritten, Ones(s), Ones(Shape(n, 1, 1, 1, 1)), Zeros(Shape(1, 1, 1, 1, n)), 1).Get(q) == (q.i4 + 1) as real
    ensures Conv(TwoD, Intended, Ones(s), Ones(Shape(n, 1, 1, 1, 1)), Zeros(Shape(1, 1, 1, 1, n)), 1).Get(q) == 1.0
  {
    OnesAccumulate(Ones(s), Ones(Shape(n, 1, 1, 1, 1)), Zeros(Shape(1, 1, 1, 1, n)), q);
  }

  /** AccumulatorNotReset for any tensors of ones and zero biases of those shapes. */
  lemma OnesAccumulate(x: Tensor, f: Tensor, b: Tensor, q: Index)
    requires x.Valid() && f.Valid() && b.Valid() && x.shape.d4 == 1
    requires f.shape == Shape(f.shape.d0, 1, 1, 1, 1) && b.shape == Shape(1, 1, 1, 1, f.shape.d0)
    requires forall ix | x.shape.Contains(ix) :: x.Get(ix) == 1.0
    requires forall ix | f.shape.Contains(ix) :: f.Get(ix) == 1.0
    requires forall ix | b.shape.Contains(ix) :: b.Get(ix) == 0.0
    requires Shape(x.shape.d0, x.shape.d1, x.shape.d2, x.shape.d3, f.shape.d0).Contains(q)
    ensures OutShape(TwoD, x.shape, f.shape, 1) == Shape(x.shape.d0, x.shape.d1, x.shape.d2, x.shape.d3, f.shape.d0)
    ensures Convolvable(TwoD, AsWritten, x, f, b, 1) && Convolvable(TwoD, Intended, x, f, b, 1)
    ensures Conv(TwoD, AsWritten, x, f, b, 1).Get(q) == (q.i4 + 1) as real
    ensures Conv(TwoD, Intended, x, f, b, 1).Get(q) == 1.0
  {
    PointFits(TwoD, x, f, b);
    assert x.shape.Contains(q.With(4, 0)) && b.shape.Contains(Index(0, 0, 0, 0, q.i4));
    forall c | 0 <= c < f.shape.d0
      ensures f.Readable(Index(c, 0, 0, 0, 0)) && f.Get(Index(c, 0, 0, 0, 0)) == 1.0
    {
      assert f.shape.Contains(Index(c, 0, 0, 0, 0));
    }
    OnesWritten(x, f, b, q);
    OnesIntended(x, f, b, q);
  }

  /** The as-written half of OnesAccumulate: the running total over filters of ones. */
  lemma OnesWritten(x: Tensor, f: Tensor, b: Tensor, q: Index)
    requires Convolvable(TwoD, AsWritten, x, f, b, 1) && OutShape(TwoD, x.shape, f.shape, 1).Contains(q)
    requires f.shape == Shape(f.shape.d0, 1, 1, 1, 1)
    requires x.Readable(q.With(4, 0)) && x.Get(q.With(4, 0)) == 1.0
    requires forall c | 0 <= c < f.shape.d0 :: f.Readable(Index(c, 0, 0, 0, 0)) && f.Get(Index(c, 0, 0, 0, 0)) == 1.0
    requires b.Readable(Index(0, 0, 0, 0, q.i4)) && b.Get(Index(0, 0, 0, 0, q.i4)) == 0.0
    ensures Conv(TwoD, AsWritten, x, f, b, 1).Get(q) == (q.i4 + 1) as real
  {
    var o := q.With(4, 0);
    forall c | 0 <= c < f.shape.d0
      ensures Dots(TwoD, AsWritten, x, f, 1, o)(c) == 1.0
    {
      PointDot(TwoD, AsWritten, x, f, b, o, c);
    }
    SumConstant(q.i4 + 1, Dots(TwoD, AsWritten, x, f, 1, o), 1.0);
    RunningTotal(TwoD, x, f, b, 1, q);
  }

  /** The intended half of OnesAccumulate. */
  lemma OnesIntended(x: Tensor, f: Tensor, b: Tensor, q: Index)
    requires x.Valid() && f.Valid() && b.Valid() && x.shape.d4 == 1
    requires f.shape == Shape(f.shape.d0, 1, 1, 1, 1) && b.shape == Shape(1, 1, 1, 1, f.shape.d0)
    requires forall ix | x.shape.Contains(ix) :: x.Get(ix) == 1.0
    requires forall ix | f.shape.Contains(ix) :: f.Get(ix) == 1.0
    requires forall ix | b.shape.Contains(ix) :: b.Get(ix) == 0.0
    requires Convolvable(TwoD, Intended, x, f, b, 1)
    requires OutShape(TwoD, x.shape, f.shape, 1) == Shape(x.shape.d0, x.shape.d1, x.shape.d2, x.shape.d3, f.shape.d0)
    requires OutShape(TwoD, x.shape, f.shape, 1).Contains(q)
    ensures Conv(TwoD, Intended, x, f, b, 1).Get(q) == 1.0
  {
    var o := q.With(4, 0);
    var filter := Index(q.i4, 0, 0, 0, 0);
    assert x.shape.Contains(o) && x.Get(o) == 1.0;
    PointDot(TwoD, Intended, x, f, b, o, q.i4);
    assert f.Get(filter) == 1.0 && Mul(x.Get(o), f.Get(filter)) == 1.0;
    assert b.shape.Contains(Index(0, 0, 0, 0, q.i4)) && b.Get(Index(0, 0, 0, 0, q.i4)) == 0.0;
    IntendedCell(TwoD, x, f, b, 1, q);
  }

  /** A tensor whose every cell holds its own row (height) subscript. */
  function RowRamp(s: Shape): (r: Tensor)
    requires s.Valid()
    ensures r.Valid() && r.shape == s
    ensures forall ix | s.Contains(ix) :: r.Get(ix) == ix.i3 as real
  {
    Build(s, (ix: Index) => ix.i3 as real)
  }

  /**
   * conv3d as written takes the height read from the output's column: on
   * an input whose cells hold their own row, a single one-cell filter of
   * one returns every cell's column where the intended convolution returns
   * its row.
   */
  lemma Conv3DHeightFromWidth(s: Shape, q: Index)
    requires s.Valid() && s.d4 == 1 && s.d2 <= s.d3 && s.Contains(q)
    ensures OutShape(ThreeD, s, Shape(1, 1, 1, 1, 1), 1) == s
    ensures Convolvable(ThreeD, AsWritten, RowRamp(s), Ones(Shape(1, 1, 1, 1, 1)), Zeros(Shape(1, 1, 1, 1, 1)), 1)
    ensures Convolvable(ThreeD, Intended, RowRamp(s), Ones(Shape(1, 1, 1, 1, 1)), Zeros(Shape(1, 1, 1, 1, 1)), 1)
    ensures Conv(ThreeD, AsWritten, RowRamp(s), Ones(Shape(1, 1, 1, 1, 1)), Zeros(Shape(1, 1, 1, 1, 1)), 1).Get(q) == q.i2 as real
    ensures Conv(ThreeD, Intended, RowRamp(s), Ones(Shape(1, 1, 1, 1, 1)), Zeros(Shape(1, 1, 1, 1, 1)), 1).Get(q) == q.i3 as real
  {
    RampHeight(RowRamp(s), Ones(Shape(1, 1, 1, 1, 1)), Zeros(Shape(1, 1, 1, 1, 1)), q);
  }

  /** Conv3DHeightFromWidth for any such tensors. */
  lemma RampHeight(x: Tensor, f: Tensor, b: Tensor, q: Index)
    requires x.Valid() && f.Valid() && b.Valid() && x.shape.d4 == 1 && x.shape.d2 <= x.shape.d3
    requires f.shape == Shape(1, 1, 1, 1, 1) && b.shape == Shape(1, 1, 1, 1, 1)
    requires forall ix | x.shape.Contains(ix) :: x.Get(ix) == ix.i3 as real
    requires forall ix | f.shape.Contains(ix) :: f.Get(ix) == 1.0
    requires forall ix | b.shape.Contains(ix) :: b.Get(ix) == 0.0
    requires x.shape.Contains(q)
    ensures OutShape(ThreeD, x.shape, f.shape, 1) == x.shape
    ensures Convolvable(ThreeD, AsWritten, x, f, b, 1) && Convolvable(ThreeD, Intended, x, f, b, 1)
    ensures Conv(ThreeD, AsWritten, x, f, b, 1).Get(q) == q.i2 as real
    ensures Conv(ThreeD, Intended, x, f, b, 1).Get(q) == q.i3 as real
  {
    var zero := Index(0, 0, 0, 0, 0);
    var column := q.With(3, q.i2);
    PointFits(ThreeD, x, f, b);
    assert q.With(4, 0) == q;
    assert x.shape.Contains(column) && f.shape.Contains(zero) && b.shape.Contains(zero);
    assert x.Get(column) == q.i2 as real && x.Get(q) == q.i3 as real;
    assert f.Get(zero) == 1.0 && b.Get(zero) == 0.0;
    RunningTotal(ThreeD, x, f, b, 1, q);
    assert Sum(1, Dots(ThreeD, AsWritten, x, f, 1, q)) == Dot(ThreeD, AsWritten, x, f, 1, q, 0);
    PointDot(ThreeD, AsWritten, x, f, b, q, 0);
    assert Mul(x.Get(column), f.Get(zero)) == q.i2 as real;
    IntendedCell(ThreeD, x, f, b, 1, q);
    PointDot(ThreeD, Intended, x, f, b, q, 0);
    assert Mul(x.Get(q), f.Get(zero)) == q.i3 as real;
  }

  /** The intended convolution (2D or 3D) of a one-channel input with a unit filter and zero bias is the input. */
  lemma ConvUnitFilter(kind: ConvKind, x: Tensor)
    requires x.Valid() && x.shape.d4 == 1
    ensures Convolvable(kind, Intended, x, Ones(Shape(1, 1, 1, 1, 1)), Zeros(Shape(1, 1, 1, 1, 1)), 1)
    ensures Conv(kind, Intended, x, Ones(Shape(1, 1, 1, 1, 1)), Zeros(Shape(1, 1, 1, 1, 1)), 1) == x
  {
    UnitConv(kind, x, Ones(Shape(1, 1, 1, 1, 1)), Zeros(Shape(1, 1, 1, 1, 1)));
  }

  /** ConvUnitFilter for any such filter and bias. */
  lemma UnitConv(kind: ConvKind, x: Tensor, f: Tensor, b: Tensor)
    requires x.Valid() && x.shape.d4 == 1 && f.Valid() && b.Valid()
    requires f.shape == Shape(1, 1, 1, 1, 1) && b.shape == Shape(1, 1, 1, 1, 1)
    requires forall ix | f.shape.Contains(ix) :: f.Get(ix) == 1.0
    requires forall ix | b.shape.Contains(ix) :: b.Get(ix) == 0.0
    ensures Convolvable(kind, Intended, x, f, b, 1)
    ensures Conv(kind, Intended, x, f, b, 1) == x
  {
    PointFits(kind, x, f, b);
    assert f.shape.Contains(Index(0, 0, 0, 0, 0));
    var r := Conv(kind, Intended, x, f, b, 1);
    forall q | x.shape.Contains(q)
      ensures r.Get(q) == x.Get(q)
    {
      SingleChannel(x.shape, q);
      UnitCell(kind, x, f, b, q);
    }
    Ext(r, x);
  }

  /** In a one-channel shape every subscript is its own channel-0 subscript. */
  lemma SingleChannel(s: Shape, q: Index)
    requires s.d4 == 1 && s.Contains(q)
    ensures q.i4 == 0 && q.With(4, 0) == q
  {
  }

  /** One cell of UnitConv: a channel-0 output cell of a one-cell unit filter reads the input cell under it. */
  lemma UnitCell(kind: ConvKind, x: Tensor, f: Tensor, b: Tensor, q: Index)
    requires Convolvable(kind, Intended, x, f, b, 1) && OutShape(kind, x.shape, f.shape, 1).Contains(q) && q.i4 == 0
    requires f.shape == Shape(1, 1, 1, 1, 1) && f.Readable(Index(0, 0, 0, 0, 0)) && f.Get(Index(0, 0, 0, 0, 0)) == 1.0
    requires b.Readable(Index(0, 0, 0, 0, 0)) && b.Get(Index(0, 0, 0, 0, 0)) == 0.0
    ensures x.Readable(q) && Conv(kind, Intended, x, f, b, 1).Get(q) == x.Get(q)
  {
    assert q.With(4, 0) == q;
    assert PointRead(kind, Intended, q) == q;
    PointDot(kind, Intended, x, f, b, q, 0);
    IntendedCell(kind, x, f, b, 1, q);
  }

  /**
   * conv2d as written is right with a single filter: the accumulator only
   * goes wrong from the second filter on.
   */
  lemma SingleFilter2D(x: Tensor, f: Tensor, bias: Tensor, stride: int)
    requires Convolvable(TwoD, AsWritten, x, f, bias, stride) && f.shape.d0 == 1
    ensures Convolvable(TwoD, Intended, x, f, bias, stride)
    ensures Conv(TwoD, AsWritten, x, f, bias, stride) == Conv(TwoD, Intended, x, f, bias, stride)
  {
    Convolvable2D(x, f, bias, stride);
    var r, t := Conv(TwoD, AsWritten, x, f, bias, stride), Conv(TwoD, Intended, x, f, bias, stride);
    forall q | OutShape(TwoD, x.shape, f.shape, stride).Contains(q)
      ensures r.Get(q) == t.Get(q)
    {
      var o := q.With(4, 0);
      assert q.i4 == 0;
      WrittenCell(TwoD, x, f, bias, stride, q);
      ChannelTotal(TwoD, x, f, bias, stride, o, 0);
      assert Sum(1, Dots(TwoD, AsWritten, x, f, stride, o)) == Dot(TwoD, AsWritten, x, f, stride, o, 0);
      SameReads2D(x, f, stride, o, 0);
      IntendedCell(TwoD, x, f, bias, stride, q);
    }
    Ext(r, t);
  }
}
