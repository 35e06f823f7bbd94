/**
 * The operation catalogue of the autograd graph: what each operation's
 * compute makes of the cached outputs of its inputs, the weight shapes its
 * build infers from the input shape, and the delta the two losses return.
 *
 * A cached output is an Option: None stands for a node that holds no valid
 * tensor. That is the default-constructed empty tensor of a node nobody
 * has set, a compute whose reads would leave a buffer (undefined behaviour
 * in the engine), or a compute whose numerics this model does not cover.
 */
module Operations {

  import opened Shapes
  import opened Tensors
  import opened Elementwise
  import Products
  import Layout
  import Pooling
  import Convolution

  datatype Option<T> = None | Some(value: T)

  /** Every operation class of the graph, with the parameters its constructor keeps. */
  datatype OpKind =
    | Add
    | MatMul
    | Conv2D(width: int, padding: int, stride: int, filters: int)
    | Conv3D(width: int, padding: int, stride: int, filters: int)
    | MaxPooling(width: int)
    | MinPooling(width: int)
    | AvgPooling(width: int)
    | Reshape(target: Shape)
    | Flatten
    | FullConnected(outputs: int)
    | Sigmoid
    | ReLU
    | LeakyReLU(params: ReluParams)
    | Softmax
    | Mse
    | CrossEntropy

  /** inputs[k], or no tensor where the vector has no k-th entry. */
  function Arg(ins: seq<Option<Tensor>>, k: nat): Option<Tensor> {
    if k < |ins| then ins[k] else None
  }

  /** The shape of each cached input (an empty shape where there is no tensor). */
  function ShapesOf(ins: seq<Option<Tensor>>): (s: seq<Shape>)
    ensures |s| == |ins|
    ensures forall k | 0 <= k < |ins| && ins[k].Some? :: s[k] == ins[k].value.shape
  {
    seq(|ins|, k requires 0 <= k < |ins| => if ins[k].Some? then ins[k].value.shape else Shape(0, 0, 0, 0, 0))
  }

  function ShapeArg(s: seq<Shape>, k: nat): Shape {
    if k < |s| then s[k] else Shape(0, 0, 0, 0, 0)
  }

  /** The inferred shape of an input that holds a tensor is that tensor's shape. */
  lemma ShapeOfArg(ins: seq<Option<Tensor>>, k: nat)
    requires Arg(ins, k).Some?
    ensures ShapeArg(ShapesOf(ins), k) == Arg(ins, k).value.shape
  {
  }

  /**
   * Shape inference: the shape each operation's output takes, from the
   * shapes of its inputs alone. A binary operator has the right operand's
   * shape, so Softmax (x / exp(x).reduce_sum(1)) has one frame, and
   * FullConnected (x.matmul(w) + b) has the bias's shape; Conv3D calls
   * conv2d and keeps the frames axis. None where the output is not modelled.
   */
  function InferShape(op: OpKind, s: seq<Shape>): (r: Option<Shape>)
    ensures op.Sigmoid? || op.ReLU? || op.LeakyReLU? ==> r == Some(ShapeArg(s, 0))
    ensures op.Softmax? ==>
      r.Some? && r.value.d1 == 1 && forall a | 0 <= a < 5 && a != 1 :: r.value.Dim(a) == ShapeArg(s, 0).Dim(a)
    ensures (op.MaxPooling? || op.MinPooling? || op.AvgPooling?) && r.Some? ==>
      var x := ShapeArg(s, 0);
      r.value.d0 == x.d0 && r.value.d1 == x.d1 && r.value.d4 == x.d4 &&
      r.value.d2 * op.width <= x.d2 < (r.value.d2 + 1) * op.width &&
      r.value.d3 * op.width <= x.d3 < (r.value.d3 + 1) * op.width
    ensures op.Flatten? || op.Mse? || op.CrossEntropy? ==> r.None?
  {
    match op
    case Add => Some(ShapeArg(s, 1))
    case MatMul => Some(Products.ProductShape(ShapeArg(s, 0), ShapeArg(s, 1)))
    case Conv2D(_, padding, stride, _) =>
      if stride >= 1 then Some(Convolution.OutShape(Convolution.TwoD, Layout.PaddedShape(ShapeArg(s, 0), padding), ShapeArg(s, 1), stride)) else None
    case Conv3D(_, padding, stride, _) =>
      if stride >= 1 then Some(Convolution.OutShape(Convolution.TwoD, Layout.PaddedShape(ShapeArg(s, 0), padding), ShapeArg(s, 1), stride)) else None
    case MaxPooling(width) => if width >= 1 then Some(Pooling.PooledShape(ShapeArg(s, 0), width)) else None
    case MinPooling(width) => if width >= 1 then Some(Pooling.PooledShape(ShapeArg(s, 0), width)) else None
    case AvgPooling(width) => if width >= 1 then Some(Pooling.PooledShape(ShapeArg(s, 0), width)) else None
    case Reshape(target) => Some(target)
    case Flatten => None
    case FullConnected(_) => Some(ShapeArg(s, 2))
    case Sigmoid => Some(ShapeArg(s, 0))
    case ReLU => Some(ShapeArg(s, 0))
    case LeakyReLU(_) => Some(ShapeArg(s, 0))
    case Softmax => Some(ShapeArg(s, 0).With(1, 1))
    case Mse => None
    case CrossEntropy => None
  }

  /** x + y (Tensor::operator+): the right operand's shape, the right operand broadcast. */
  function AddValue(x: Option<Tensor>, y: Option<Tensor>): (r: Option<Tensor>)
    ensures r.Some? ==> x.Some? && y.Some? && r.value.Valid() && r.value.shape == y.value.shape
  {
    if x.Some? && y.Some? && CombinableWith(x.value, y.value) then Some(Combined(Plus, x.value, y.value)) else None
  }

  /** x.matmul(y), summing over the left operand's channels. */
  function MatMulValue(x: Option<Tensor>, y: Option<Tensor>): (r: Option<Tensor>)
    ensures r.Some? ==> x.Some? && y.Some? && r.value.Valid() && r.value.shape == Products.ProductShape(x.value.shape, y.value.shape)
  {
    if x.Some? && y.Some? && Products.Multipliable(x.value, y.value, x.value.shape.d4)
    then Some(Products.Product(x.value, y.value, x.value.shape.d4))
    else None
  }

  /** x.padding(padding).conv2d(filter, bias, stride). */
  function ConvValue(x: Option<Tensor>, f: Option<Tensor>, b: Option<Tensor>, padding: int, stride: int): (r: Option<Tensor>)
    ensures r.Some? ==> (x.Some? && f.Some? && stride >= 1 && r.value.Valid() &&
      r.value.shape == Convolution.OutShape(Convolution.TwoD, Layout.PaddedShape(x.value.shape, padding), f.value.shape, stride))
  {
    if x.Some? && f.Some? && b.Some? && x.value.Valid() && padding >= 0 &&
       Convolution.Convolvable(Convolution.TwoD, Convolution.Intended, Layout.Padded(x.value, padding), f.value, b.value, stride)
    then Some(Convolution.Conv(Convolution.TwoD, Convolution.Intended, Layout.Padded(x.value, padding), f.value, b.value, stride))
    else None
  }

  /** x.max_pooling(width), x.min_pooling(width) (a fold of the window). */
  function PoolValue(op: Pooling.PoolOp, x: Option<Tensor>, width: int): (r: Option<Tensor>)
    ensures r.Some? ==> x.Some? && width >= 1 && r.value.Valid() && r.value.shape == Pooling.PooledShape(x.value.shape, width)
  {
    if x.Some? && Pooling.Poolable(x.value, width) then Some(Pooling.Pool(op, x.value, width)) else None
  }

  /** x.avg_pooling(width). */
  function AvgValue(x: Option<Tensor>, width: int): (r: Option<Tensor>)
    ensures r.Some? ==> x.Some? && width >= 1 && r.value.Valid() && r.value.shape == Pooling.PooledShape(x.value.shape, width)
  {
    if x.Some? && Pooling.Poolable(x.value, width) then Some(Pooling.AvgPooling(x.value, width)) else None
  }

  /** x.reshape(target). */
  function ReshapeValue(x: Option<Tensor>, target: Shape): (r: Option<Tensor>)
    ensures r.Some? ==> r.value.Valid() && r.value.shape == target
  {
    if x.Some? && x.value.Valid() && target.Valid() && target.Size() <= |x.value.data|
    then Some(Layout.Reshape(x.value, target))
    else None
  }

  /** x.matmul(w).add(b). */
  function FullConnectedValue(x: Option<Tensor>, w: Option<Tensor>, b: Option<Tensor>): (r: Option<Tensor>)
    ensures r.Some? ==> b.Some? && r.value.Valid() && r.value.shape == b.value.shape
  {
    var p := MatMulValue(x, w);
    if p.Some? then AddValue(p, b) else None
  }

  /** An elementwise map of the first input. */
  function ReluValue(x: Option<Tensor>, params: Option<ReluParams>): (r: Option<Tensor>)
    ensures r.Some? ==> x.Some? && r.value.Valid() && r.value.shape == x.value.shape
  {
    if x.Some? && x.value.Valid() then
      Some(if params.Some? then ClippedReluTensor(x.value, params.value) else ReluTensor(x.value))
    else None
  }

  /**
   * Operation::compute for every operation class, as a function of the
   * cached outputs of its input nodes.
   */
  function Compute(op: OpKind, ins: seq<Option<Tensor>>): (r: Option<Tensor>)
    ensures r.Some? ==> r.value.Valid() && Arg(ins, 0).Some?
  {
    match op
    case Add => AddValue(Arg(ins, 0), Arg(ins, 1))
    case MatMul => MatMulValue(Arg(ins, 0), Arg(ins, 1))
    case Conv2D(_, padding, stride, _) => ConvValue(Arg(ins, 0), Arg(ins, 1), Arg(ins, 2), padding, stride)
    case Conv3D(_, padding, stride, _) => ConvValue(Arg(ins, 0), Arg(ins, 1), Arg(ins, 2), padding, stride)
    case MaxPooling(width) => PoolValue(Pooling.MaxOp, Arg(ins, 0), width)
    case MinPooling(width) => PoolValue(Pooling.MinOp, Arg(ins, 0), width)
    case AvgPooling(width) => AvgValue(Arg(ins, 0), width)
    case Reshape(target) => ReshapeValue(Arg(ins, 0), target)
    case Flatten => None
    case FullConnected(_) => FullConnectedValue(Arg(ins, 0), Arg(ins, 1), Arg(ins, 2))
    case Sigmoid => None
    case ReLU => ReluValue(Arg(ins, 0), None)
    case LeakyReLU(params) => ReluValue(Arg(ins, 0), Some(params))
    case Softmax => None
    case Mse => None
    case CrossEntropy => None
  }

  /** Every defined compute has the shape inference predicts from the shapes of its inputs. */
  lemma ComputeShape(op: OpKind, ins: seq<Option<Tensor>>)
    requires Compute(op, ins).Some?
    ensures InferShape(op, ShapesOf(ins)) == Some(Compute(op, ins).value.shape)
  {
    match op
    case Add => ShapeOfArg(ins, 1);
    case MatMul => ShapeOfArg(ins, 0); ShapeOfArg(ins, 1);
    case Conv2D(_, _, _, _) => ShapeOfArg(ins, 0); ShapeOfArg(ins, 1);
    case Conv3D(_, _, _, _) => ShapeOfArg(ins, 0); ShapeOfArg(ins, 1);
    case MaxPooling(_) => ShapeOfArg(ins, 0);
    case MinPooling(_) => ShapeOfArg(ins, 0);
    case AvgPooling(_) => ShapeOfArg(ins, 0);
    case FullConnected(_) => ShapeOfArg(ins, 2);
    case ReLU => ShapeOfArg(ins, 0);
    case LeakyReLU(_) => ShapeOfArg(ins, 0);
    case _ =>
  }

  /**
   * The shapes of the weights build creates, in the order it appends them:
   * a convolution's kernel (one filter per output channel, the input's
   * frames and channels, width x width) and bias; FullConnected's weight
   * (input channels x outputs) and bias. Other operations create none.
   */
  function WeightShapes(op: OpKind, s: Shape): (r: seq<Shape>)
    ensures |r| == |WeightNames(op)| && (|r| == 0 || |r| == 2)
    ensures |r| == 2 <==> op.Conv2D? || op.Conv3D? || op.FullConnected?
    ensures op.Conv2D? || op.Conv3D? ==>
      r[0].d1 == s.d1 && r[0].d4 == s.d4 && r[1] == Shape(1, 1, 1, 1, r[0].d0)
    ensures op.FullConnected? ==> r[0].d3 == s.d4 && r[1] == Shape(1, 1, 1, 1, r[0].d4)
  {
    match op
    case Conv2D(width, _, _, filters) => [Shape(filters, s.d1, width, width, s.d4), Shape(1, 1, 1, 1, filters)]
    case Conv3D(width, _, _, filters) => [Shape(filters, s.d1, width, width, s.d4), Shape(1, 1, 1, 1, filters)]
    case FullConnected(outputs) => [Shape(1, 1, 1, s.d4, outputs), Shape(1, 1, 1, 1, outputs)]
    case _ => []
  }

  /** The names build gives those weights. */
  function WeightNames(op: OpKind): seq<string> {
    match op
    case Conv2D(_, _, _, _) => ["kernel", "bias"]
    case Conv3D(_, _, _, _) => ["kernel", "bias"]
    case FullConnected(_) => ["weight", "bias"]
    case _ => []
  }

  /** A convolution whose window fits the padded input. */
  predicate ConvolutionFits(op: OpKind, x: Tensor) {
    (op.Conv2D? || op.Conv3D?) && x.Valid() &&
    op.padding >= 0 && op.stride >= 1 && op.filters >= 1 && op.width >= 1 &&
    op.width <= x.shape.d2 + 2 * op.padding && op.width <= x.shape.d3 + 2 * op.padding
  }

  /**
   * The kernel and bias build creates make the convolution's compute
   * defined: its output keeps the samples and (in Conv2D and, as written,
   * Conv3D alike) the frames, counts the window positions along width and
   * height of the padded input, and has one channel per filter.
   */
  lemma ConvolutionBuildFits(op: OpKind, x: Tensor, kernel: Tensor, bias: Tensor)
    requires ConvolutionFits(op, x) && kernel.Valid() && bias.Valid()
    requires [kernel.shape, bias.shape] == WeightShapes(op, x.shape)
    ensures Compute(op, [Some(x), Some(kernel), Some(bias)]).Some?
    ensures Compute(op, [Some(x), Some(kernel), Some(bias)]).value.shape ==
      Shape(x.shape.d0, x.shape.d1,
            Convolution.CDiv(x.shape.d2 + 2 * op.padding - op.width, op.stride) + 1,
            Convolution.CDiv(x.shape.d3 + 2 * op.padding - op.width, op.stride) + 1,
            op.filters)
  {
    var xp := Layout.Padded(x, op.padding);
    KernelFits(xp, kernel, bias, op.stride);
    var r := ConvValue(Some(x), Some(kernel), Some(bias), op.padding, op.stride);
    assert r.Some?;
    assert Compute(op, [Some(x), Some(kernel), Some(bias)]) == r;
  }

  /** A kernel no wider and no higher than the input, with the input's channels and one bias per filter, fits conv2d. */
  lemma KernelFits(x: Tensor, kernel: Tensor, bias: Tensor, stride: int)
    requires x.Valid() && kernel.Valid() && bias.Valid() && stride >= 1
    requires kernel.shape.d2 <= x.shape.d2 && kernel.shape.d3 <= x.shape.d3 && kernel.shape.d4 == x.shape.d4
    requires bias.shape == Shape(1, 1, 1, 1, kernel.shape.d0)
    ensures Convolution.Convolvable(Convolution.TwoD, Convolution.Intended, x, kernel, bias, stride)
  {
    var out := Convolution.OutShape(Convolution.TwoD, x.shape, kernel.shape, stride);
    Convolution.WindowsFit(Convolution.TwoD, x.shape, kernel.shape, stride, 2);
    Convolution.WindowsFit(Convolution.TwoD, x.shape, kernel.shape, stride, 3);
    var last := Convolution.Read(Convolution.TwoD, Convolution.Intended, out.Last(), kernel.shape.Last(), stride);
    assert x.shape.Contains(last);
    assert bias.shape.Contains(Index(0, 0, 0, 0, kernel.shape.d0 - 1));
  }

  /** The input shape FullConnected's build expects: any valid shape. */
  lemma FullConnectedBuildFits(op: OpKind, x: Tensor, weight: Tensor, bias: Tensor)
    requires op.FullConnected? && op.outputs >= 1 && x.Valid() && weight.Valid() && bias.Valid()
    requires [weight.shape, bias.shape] == WeightShapes(op, x.shape)
    ensures Products.Multipliable(x, weight, x.shape.d4)
    ensures var r := Compute(op, [Some(x), Some(weight), Some(bias)]);
            r.Some? && r.value.shape == Shape(1, 1, 1, 1, op.outputs) &&
            forall c | 0 <= c < op.outputs ::
              var ix := Index(0, 0, 0, 0, c);
              r.value.Get(ix) == Products.Product(x, weight, x.shape.d4).Get(ix) + bias.Get(ix)
  {
    var ins := [Some(x), Some(weight), Some(bias)];
    assert weight.shape == Shape(1, 1, 1, x.shape.d4, op.outputs);
    assert bias.shape == Shape(1, 1, 1, 1, op.outputs);
    FullConnectedSum(x, weight, bias, op.outputs);
    var p := Products.Product(x, weight, x.shape.d4);
    assert Arg(ins, 0) == Some(x) && Arg(ins, 1) == Some(weight) && Arg(ins, 2) == Some(bias);
    assert MatMulValue(Some(x), Some(weight)) == Some(p);
    assert Compute(op, ins) == FullConnectedValue(Some(x), Some(weight), Some(bias));
    assert Compute(op, ins) == Some(Combined(Plus, p, bias));
  }

  /** x.matmul(w) + b with the weights build creates: one bias per output. */
  lemma FullConnectedSum(x: Tensor, weight: Tensor, bias: Tensor, n: int)
    requires n >= 1 && x.Valid() && weight.Valid() && bias.Valid()
    requires weight.shape == Shape(1, 1, 1, x.shape.d4, n) && bias.shape == Shape(1, 1, 1, 1, n)
    ensures Products.Multipliable(x, weight, x.shape.d4)
    ensures CombinableWith(Products.Product(x, weight, x.shape.d4), bias)
    ensures var p := Products.Product(x, weight, x.shape.d4);
            forall c | 0 <= c < n ::
              var ix := Index(0, 0, 0, 0, c);
              Combined(Plus, p, bias).Get(ix) == p.Get(ix) + bias.Get(ix)
  {
    assert x.shape.Last().With(4, x.shape.d4 - 1) == x.shape.Last();
    assert x.shape.Contains(x.shape.Last());
    assert weight.shape.Contains(Index(0, 0, 0, x.shape.d4 - 1, n - 1));
    var p := Products.Product(x, weight, x.shape.d4);
    assert p.shape.Contains(bias.shape.Last());
    assert CombinableWith(p, bias);
    var r := Combined(Plus, p, bias);
    forall c | 0 <= c < n
      ensures r.Get(Index(0, 0, 0, 0, c)) == p.Get(Index(0, 0, 0, 0, c)) + bias.Get(Index(0, 0, 0, 0, c))
    {
      var ix := Index(0, 0, 0, 0, c);
      assert bias.shape.Contains(ix);
      if p.shape != bias.shape {
        var axis := FirstDifferingAxis(p.shape, bias.shape);
        assert axis < 4;
        assert ix.With(axis, 0) == ix;
      }
    }
  }

  /**
   * The node layers::minpooling builds as written, a MaxPooling node, caches
   * the largest cell of each window; wherever a window holds two different
   * values that is not the smallest cell a MinPooling node would give.
   */
  lemma MinpoolingAsWrittenTakesMax(t: Tensor, width: int, o: Index, pk1: int, pl1: int, pk2: int, pl2: int)
    requires Pooling.Poolable(t, width) && Pooling.PooledShape(t.shape, width).Contains(o)
    requires 0 <= pk1 < width && 0 <= pl1 < width && 0 <= pk2 < width && 0 <= pl2 < width
    requires t.shape.Contains(Pooling.Cell(o, width, pk1, pl1)) && t.shape.Contains(Pooling.Cell(o, width, pk2, pl2))
    requires t.Get(Pooling.Cell(o, width, pk1, pl1)) != t.Get(Pooling.Cell(o, width, pk2, pl2))
    ensures Compute(MaxPooling(width), [Some(t)]) == Some(Pooling.Pool(Pooling.MaxOp, t, width))
    ensures Compute(MinPooling(width), [Some(t)]) == Some(Pooling.Pool(Pooling.MinOp, t, width))
    ensures Pooling.Pool(Pooling.MaxOp, t, width).Get(o) != Pooling.Pool(Pooling.MinOp, t, width).Get(o)
  {
    Pooling.MaxPoolingIsWindowMax(t, width, o);
    Pooling.MinPoolingIsWindowMin(t, width, o);
  }

  /** A MinPooling node caches the smallest cell of each window, one of the window's own cells. */
  lemma MinpoolingTakesMin(t: Tensor, width: int, o: Index)
    requires Pooling.Poolable(t, width) && Pooling.PooledShape(t.shape, width).Contains(o)
    ensures Compute(MinPooling(width), [Some(t)]) == Some(Pooling.Pool(Pooling.MinOp, t, width))
    ensures var m := Pooling.Pool(Pooling.MinOp, t, width).Get(o);
            (forall pk, pl | 0 <= pk < width && 0 <= pl < width ::
               t.shape.Contains(Pooling.Cell(o, width, pk, pl)) && m <= t.Get(Pooling.Cell(o, width, pk, pl))) &&
            (exists pk, pl | 0 <= pk < width && 0 <= pl < width ::
               t.shape.Contains(Pooling.Cell(o, width, pk, pl)) && m == t.Get(Pooling.Cell(o, width, pk, pl)))
  {
    Pooling.MinPoolingIsWindowMin(t, width, o);
  }

  /**
   * MSE::backward and CrossEntrpy::backward: inputs[0] - inputs[1], the
   * prediction minus the target.
   */
  function LossDelta(ins: seq<Option<Tensor>>): (r: Option<Tensor>)
    ensures r.Some? ==>
      Arg(ins, 0).Some? && Arg(ins, 1).Some? && Arg(ins, 0).value.Valid() && Arg(ins, 1).value.Valid() &&
      r.value.Valid() && r.value.shape == Arg(ins, 1).value.shape
    ensures r.Some? && Arg(ins, 0).value.shape == Arg(ins, 1).value.shape ==>
      forall ix | r.value.shape.Contains(ix) ::
        r.value.Get(ix) == Arg(ins, 0).value.Get(ix) - Arg(ins, 1).value.Get(ix)
  {
    var y, t := Arg(ins, 0), Arg(ins, 1);
    if y.Some? && t.Some? && CombinableWith(y.value, t.value) then Some(Combined(Minus, y.value, t.value)) else None
  }

  /** For a prediction and a target of one shape the delta is defined, and it vanishes exactly when they are equal. */
  lemma DeltaVanishesAtTarget(y: Tensor, t: Tensor)
    requires y.Valid() && t.Valid() && y.shape == t.shape
    ensures LossDelta([Some(y), Some(t)]).Some?
    ensures var d := LossDelta([Some(y), Some(t)]).value;
            d.shape == t.shape &&
            ((forall ix | t.shape.Contains(ix) :: d.Get(ix) == 0.0) <==> y == t)
  {
    assert t.shape.Contains(t.shape.Last());
    assert CombinableWith(y, t);
    var d := Combined(Minus, y, t);
    if forall ix | t.shape.Contains(ix) :: d.Get(ix) == 0.0 {
      forall ix | y.shape.Contains(ix)
        ensures y.Get(ix) == t.Get(ix)
      {
        assert d.Get(ix) == y.Get(ix) - t.Get(ix);
      }
      Ext(y, t);
    }
  }
}
