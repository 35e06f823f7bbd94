/**
 * Element-wise operations: the scalar activation helpers, the tensor maps
 * built on them, arithmetic with a scalar on either side, and arithmetic
 * between two tensors with the engine's one-axis broadcasting.
 */
module Elementwise {

  import opened Shapes
  import opened Tensors

  /** __relu_(x) */
  function Relu(x: real): (r: real)
    ensures r >= 0.0 && r >= x && (r == x || r == 0.0)
  {
    if x > 0.0 then x else 0.0
  }

  /** __relu_grad_(x) */
  function ReluGrad(x: real): (r: real)
    ensures (r == 1.0 || r == 0.0) && (r == 1.0 <==> Relu(x) > 0.0)
  {
    if x > 0.0 then 1.0 else 0.0
  }

  /** Parameters of the clipped, leaky rectifier __relu_(x, max_value, threshold, negative_slop). */
  datatype ReluParams = ReluParams(maxValue: real, threshold: real, slope: real)

  /** __relu_(x, max_value, threshold, negative_slop): the first matching piece wins. */
  function ClippedRelu(x: real, p: ReluParams): (r: real)
    ensures x >= p.threshold ==> r <= x && r <= p.maxValue && (r == x || r == p.maxValue)
    ensures x < p.threshold && x < p.maxValue ==> r == p.slope * (x - p.threshold)
    ensures p.slope >= 0.0 && p.maxValue >= 0.0 ==> r <= p.maxValue
  {
    if x >= p.maxValue then p.maxValue
    else if x >= p.threshold then x
    else p.slope * (x - p.threshold)
  }

  /** __relu_grad_(x, max_value, threshold, negative_slop) */
  function ClippedReluGrad(x: real, p: ReluParams): (r: real)
    ensures r == 0.0 || r == 1.0 || r == p.slope
    ensures x >= p.maxValue ==> r == 0.0
    ensures p.threshold <= x < p.maxValue ==> r == 1.0
  {
    if x >= p.maxValue then 0.0
    else if x >= p.threshold then 1.0
    else p.slope
  }

  /** The pieces of the rectifier: which branch of __relu_ an input takes. */
  function Piece(x: real): int {
    if x > 0.0 then 1 else 0
  }

  /** The pieces of the clipped rectifier. */
  function ClippedPiece(x: real, p: ReluParams): int {
    if x >= p.maxValue then 2 else if x >= p.threshold then 1 else 0
  }

  /** On each piece the rectifier is linear with the slope its gradient helper returns. */
  lemma ReluGradIsSlope(x: real, y: real)
    requires Piece(x) == Piece(y)
    ensures Relu(y) - Relu(x) == ReluGrad(x) * (y - x)
    ensures ReluGrad(y) == ReluGrad(x)
  {
  }

  /** On each piece the clipped rectifier is linear with the slope its gradient helper returns. */
  lemma ClippedReluGradIsSlope(x: real, y: real, p: ReluParams)
    requires ClippedPiece(x, p) == ClippedPiece(y, p)
    ensures ClippedRelu(y, p) - ClippedRelu(x, p) == ClippedReluGrad(x, p) * (y - x)
    ensures ClippedReluGrad(y, p) == ClippedReluGrad(x, p)
  {
    if ClippedPiece(x, p) == 0 {
      assert p.slope * (y - p.threshold) - p.slope * (x - p.threshold) == p.slope * (y - x);
    }
  }

  /**
   * With no ceiling reached, threshold 0 and slope 0 the clipped rectifier is
   * the plain one.
   */
  lemma ClippedReluGeneralises(x: real, p: ReluParams)
    requires p.threshold == 0.0 && p.slope == 0.0 && x < p.maxValue
    ensures ClippedRelu(x, p) == Relu(x)
    ensures x != 0.0 ==> ClippedReluGrad(x, p) == ReluGrad(x)
  {
  }

  /** Tensor::relu() */
  function ReluTensor(t: Tensor): (r: Tensor)
    requires t.Valid()
    ensures r.Valid() && r.shape == t.shape
    ensures forall i | 0 <= i < |t.data| :: r.data[i] >= 0.0 && (r.data[i] == t.data[i] || r.data[i] == 0.0)
  {
    Map(t, Relu)
  }

  /** Rectifying twice is rectifying once. */
  lemma ReluIdempotent(t: Tensor)
    requires t.Valid()
    ensures ReluTensor(ReluTensor(t)) == ReluTensor(t)
  {
    var once := ReluTensor(t);
    var twice := ReluTensor(once);
    assert twice.data == once.data by {
      forall i | 0 <= i < |once.data|
        ensures twice.data[i] == once.data[i]
      {
      }
    }
  }

  /** Tensor::relu(max_value, threshold, negative_slop) */
  function ClippedReluTensor(t: Tensor, p: ReluParams): (r: Tensor)
    requires t.Valid()
    ensures r.Valid() && r.shape == t.shape
    ensures forall i | 0 <= i < |t.data| && t.data[i] >= p.maxValue :: r.data[i] == p.maxValue
    ensures forall i | 0 <= i < |t.data| && p.threshold <= t.data[i] < p.maxValue :: r.data[i] == t.data[i]
  {
    Map(t, x => ClippedRelu(x, p))
  }

  /** Tensor::hinge(t): max(0, 1 - t*x) per element. */
  function Hinge(x: Tensor, t: real): (r: Tensor)
    requires x.Valid()
    ensures r.Valid() && r.shape == x.shape
    ensures forall i | 0 <= i < |x.data| :: r.data[i] >= 0.0
  {
    Map(x, v => var y := 1.0 - t * v; if y > 0.0 then y else 0.0)
  }

  /** Tensor::neg() */
  function Neg(t: Tensor): (r: Tensor)
    requires t.Valid()
    ensures r.Valid() && r.shape == t.shape
    ensures forall i | 0 <= i < |t.data| :: r.data[i] == -t.data[i]
  {
    Map(t, v => -v)
  }

  /** Negation is its own inverse. */
  lemma NegNeg(t: Tensor)
    requires t.Valid()
    ensures Neg(Neg(t)) == t
  {
    var r := Neg(Neg(t));
    assert r.data == t.data by {
      forall i | 0 <= i < |t.data|
        ensures r.data[i] == t.data[i]
      {
      }
    }
  }

  /** The hinge of x with target t is the rectifier applied to 1 - t*x. */
  lemma HingeIsRelu(x: Tensor, t: real)
    requires x.Valid()
    ensures Hinge(x, t) == ReluTensor(Map(x, v => 1.0 - t * v))
  {
    var a, b := Hinge(x, t), ReluTensor(Map(x, v => 1.0 - t * v));
    assert a.data == b.data by {
      forall i | 0 <= i < |x.data|
        ensures a.data[i] == b.data[i]
      {
      }
    }
  }

  /** The four arithmetic operators. */
  datatype BinaryOp = Plus | Minus | Times | Divide

  /** The scalar operator; division needs a non-zero divisor (rounding and infinities are not modelled). */
  function Apply(op: BinaryOp, x: real, y: real): real
    requires op == Divide ==> y != 0.0
  {
    match op
    case Plus => x + y
    case Minus => x - y
    case Times => x * y
    case Divide => x / y
  }

  /** No element of the tensor is zero. */
  predicate NonZero(t: Tensor) {
    forall i | 0 <= i < |t.data| :: t.data[i] != 0.0
  }

  /** Tensor::operator+(T), -(T), *(T), /(T): the scalar on the right. */
  function ScalarRight(t: Tensor, op: BinaryOp, c: real): (r: Tensor)
    requires t.Valid()
    requires op == Divide ==> c != 0.0
    ensures r.Valid() && r.shape == t.shape
    ensures forall i | 0 <= i < |t.data| :: r.data[i] == Apply(op, t.data[i], c)
  {
    Map(t, x => Apply(op, x, c))
  }

  /** The free operators T + Tensor, T - Tensor, T * Tensor, T / Tensor: the scalar on the left. */
  function ScalarLeft(c: real, op: BinaryOp, t: Tensor): (r: Tensor)
    requires t.Valid()
    requires op == Divide ==> NonZero(t)
    ensures r.Valid() && r.shape == t.shape
    ensures forall i | 0 <= i < |t.data| :: r.data[i] == Apply(op, c, t.data[i])
  {
    Fill(t.shape, i requires 0 <= i < |t.data| => Apply(op, c, t.data[i]))
  }

  /** Adding and multiplying by a scalar do not depend on its side. */
  lemma ScalarSidesCommute(t: Tensor, c: real)
    requires t.Valid()
    ensures ScalarLeft(c, Plus, t) == ScalarRight(t, Plus, c)
    ensures ScalarLeft(c, Times, t) == ScalarRight(t, Times, c)
  {
    var a, b := ScalarLeft(c, Plus, t), ScalarRight(t, Plus, c);
    assert a.data == b.data;
    var m, n := ScalarLeft(c, Times, t), ScalarRight(t, Times, c);
    assert m.data == n.data;
  }

  /** Subtracting a scalar undoes adding it; dividing by a non-zero scalar undoes multiplying by it. */
  lemma ScalarInverse(t: Tensor, c: real)
    requires t.Valid()
    ensures ScalarRight(ScalarRight(t, Plus, c), Minus, c) == t
    ensures c != 0.0 ==> ScalarRight(ScalarRight(t, Times, c), Divide, c) == t
  {
    var a := ScalarRight(ScalarRight(t, Plus, c), Minus, c);
    assert a.data == t.data;
    if c != 0.0 {
      var m := ScalarRight(ScalarRight(t, Times, c), Divide, c);
      assert m.data == t.data by {
        forall i | 0 <= i < |t.data|
          ensures m.data[i] == t.data[i]
        {
          assert t.data[i] * c / c == t.data[i];
        }
      }
    }
  }

  /**
   * The axis along which __foreach_assign_ broadcasts: the first axis where
   * the two shapes differ, or -1 when they are equal.
   */
  function FirstDifferingAxis(a: Shape, b: Shape): (axis: int)
    ensures -1 <= axis < 5
    ensures axis == -1 <==> a == b
    ensures axis >= 0 ==> a.Dim(axis) != b.Dim(axis)
    ensures forall k | 0 <= k < 5 && (axis == -1 || k < axis) :: a.Dim(k) == b.Dim(k)
  {
    if a.d0 != b.d0 then 0
    else if a.d1 != b.d1 then 1
    else if a.d2 != b.d2 then 2
    else if a.d3 != b.d3 then 3
    else if a.d4 != b.d4 then 4
    else -1
  }

  /** The subscript at which the right operand is read: pinned to 0 on the broadcast axis. */
  function Broadcast(ix: Index, axis: int): Index
    requires -1 <= axis < 5
  {
    if axis == -1 then ix else ix.With(axis, 0)
  }

  /**
   * Every read of __foreach_assign_ lies in a buffer: the output takes the
   * right operand's shape and the left operand is read at every one of its
   * subscripts, so its last subscript must fall inside the left buffer.
   */
  predicate CombinableWith(a: Tensor, b: Tensor) {
    a.Valid() && b.Valid() && a.shape.Offset(b.shape.Last()) < |a.data|
  }

  lemma CombinableReads(a: Tensor, b: Tensor)
    requires CombinableWith(a, b)
    ensures forall ix | b.shape.Contains(ix) :: a.Readable(ix)
  {
    forall ix | b.shape.Contains(ix)
      ensures a.Readable(ix)
    {
      OffsetMonotone(a.shape, ix, b.shape.Last());
    }
  }

  /** The cell function __foreach_assign_ hands to foreach_assign. */
  function CombineCell(op: BinaryOp, a: Tensor, b: Tensor, axis: int): Index --> real
    requires -1 <= axis < 5 && b.Valid()
    requires forall ix | b.shape.Contains(ix) :: a.Readable(ix)
    requires op == Divide ==> NonZero(b)
  {
    ix requires b.shape.Contains(ix) => Apply(op, a.Get(ix), b.Get(Broadcast(ix, axis)))
  }

  /**
   * Tensor::operator+(Tensor), -, *, /: the output has the RIGHT operand's
   * shape; the left operand is read at each output subscript and the right
   * operand at that subscript pinned to 0 on the first axis where the shapes
   * differ (only that axis).
   */
  function Combined(op: BinaryOp, a: Tensor, b: Tensor): (r: Tensor)
    requires CombinableWith(a, b)
    requires op == Divide ==> NonZero(b)
    ensures r.Valid() && r.shape == b.shape
    ensures a.shape == b.shape ==>
      forall ix | b.shape.Contains(ix) :: r.Get(ix) == Apply(op, a.Get(ix), b.Get(ix))
    ensures a.shape != b.shape ==>
      var axis := FirstDifferingAxis(a.shape, b.shape);
      forall ix | b.shape.Contains(ix) :: a.Readable(ix) && r.Get(ix) == Apply(op, a.Get(ix), b.Get(ix.With(axis, 0)))
  {
    CombinableReads(a, b);
    Build(b.shape, CombineCell(op, a, b, FirstDifferingAxis(a.shape, b.shape)))
  }

  /** __foreach_assign_: find the broadcast axis with a loop, then fill the output. */
  method Combine(op: BinaryOp, a: Tensor, b: Tensor) returns (r: Tensor)
    requires CombinableWith(a, b)
    requires op == Divide ==> NonZero(b)
    ensures r == Combined(op, a, b)
  {
    var axis := -1;
    var i := 0;
    while i < 5
      invariant 0 <= i <= 5
      invariant axis == -1 || (0 <= axis < i && axis == FirstDifferingAxis(a.shape, b.shape))
      invariant axis == -1 ==> forall k | 0 <= k < i :: a.shape.Dim(k) == b.shape.Dim(k)
    {
      if a.shape.Dim(i) != b.shape.Dim(i) {
        axis := i;
        break;
      }
      i := i + 1;
    }
    assert axis == FirstDifferingAxis(a.shape, b.shape);
    CombinableReads(a, b);
    r := ForeachAssign(b.shape, CombineCell(op, a, b, axis));
  }

  /** A + B == B + A for tensors of one shape. */
  lemma AddCommutes(a: Tensor, b: Tensor)
    requires a.Valid() && b.Valid() && a.shape == b.shape
    ensures Combined(Plus, a, b) == Combined(Plus, b, a)
  {
    Ext(Combined(Plus, a, b), Combined(Plus, b, a));
  }

  /** (A + k) + B == (A + B) + k for tensors of one shape. */
  lemma AddScalarShifts(a: Tensor, b: Tensor, k: real)
    requires a.Valid() && b.Valid() && a.shape == b.shape
    ensures Combined(Plus, ScalarRight(a, Plus, k), b) == ScalarRight(Combined(Plus, a, b), Plus, k)
  {
    var l, r := Combined(Plus, ScalarRight(a, Plus, k), b), ScalarRight(Combined(Plus, a, b), Plus, k);
    forall ix | a.shape.Contains(ix)
      ensures l.Get(ix) == r.Get(ix)
    {
    }
    Ext(l, r);
  }

  /** (A + B) - B == A for tensors of one shape: subtraction undoes addition. */
  lemma SubUndoesAdd(a: Tensor, b: Tensor)
    requires a.Valid() && b.Valid() && a.shape == b.shape
    ensures Combined(Minus, Combined(Plus, a, b), b) == a
  {
    var r := Combined(Minus, Combined(Plus, a, b), b);
    Ext(r, a);
  }

  /**
   * Broadcasting a one-sample right operand: when the shapes differ first in
   * the sample count and the right operand has ONE sample, the output has
   * one sample too and combines the left operand's first sample with it.
   */
  lemma BroadcastKeepsRightShape(op: BinaryOp, a: Tensor, b: Tensor, ix: Index)
    requires CombinableWith(a, b) && (op == Divide ==> NonZero(b))
    requires a.shape.d0 != b.shape.d0 && b.shape.d0 == 1
    requires b.shape.Contains(ix)
    ensures Combined(op, a, b).shape.d0 == 1
    ensures a.Readable(ix) && Combined(op, a, b).Get(ix) == Apply(op, a.Get(ix), b.Get(ix))
  {
    assert ix.With(0, 0) == ix;
  }

  /**
   * In that case only the cells of the left operand inside the right
   * operand's one-sample box are read: two left operands of one shape that
   * agree there give the same result, whatever their later samples hold.
   */
  lemma BroadcastIgnoresLaterSamples(op: BinaryOp, a: Tensor, a2: Tensor, b: Tensor)
    requires CombinableWith(a, b) && CombinableWith(a2, b) && a2.shape == a.shape
    requires op == Divide ==> NonZero(b)
    requires a.shape.d0 != b.shape.d0 && b.shape.d0 == 1
    requires forall ix | b.shape.Contains(ix) && a.Readable(ix) && a2.Readable(ix) :: a.Get(ix) == a2.Get(ix)
    ensures Combined(op, a, b) == Combined(op, a2, b)
  {
    forall ix | b.shape.Contains(ix)
      ensures Combined(op, a, b).Get(ix) == Combined(op, a2, b).Get(ix)
    {
      BroadcastKeepsRightShape(op, a, b, ix);
      BroadcastKeepsRightShape(op, a2, b, ix);
    }
    Ext(Combined(op, a, b), Combined(op, a2, b));
  }
}
