/**
 * The tensor value and the loops every operation is built from.
 *
 * A tensor is a rank-5 shape and a flat row-major buffer. Every operation of
 * the engine allocates a fresh output tensor and fills it, so a tensor is
 * modelled as an immutable value; the output buffer of each loop is a local
 * array. Elements are real numbers: floating-point rounding is not modelled.
 */
module Tensors {

  import opened Shapes

  datatype Tensor = Tensor(shape: Shape, data: seq<real>) {

    /** A well-formed tensor: a valid shape and a buffer of exactly its size. */
    predicate Valid() {
      shape.Valid() && |data| == shape.Size()
    }

    /** The linear index of subscript `ix` lies inside the buffer. */
    predicate Readable(ix: Index) {
      0 <= shape.Offset(ix) < |data|
    }

    /**
     * Tensor::at: the buffer cell at the row-major linear index of `ix`.
     * Subscripts are not checked against the axes, only the linear index
     * must lie in the buffer.
     */
    function Get(ix: Index): real
      requires Readable(ix)
    {
      data[shape.Offset(ix)]
    }
  }

  /**
   * Real multiplication, named so that the solver treats the products of
   * cells (and of cells with weights) as terms rather than as non-linear arithmetic.
   */
  function Mul(x: real, y: real): real {
    x * y
  }

  /** Two tensors of one shape that agree on every cell are equal. */
  lemma Ext(a: Tensor, b: Tensor)
    requires a.Valid() && b.Valid() && a.shape == b.shape
    requires forall ix | a.shape.Contains(ix) :: a.Get(ix) == b.Get(ix)
    ensures a == b
  {
    forall k | 0 <= k < |a.data|
      ensures a.data[k] == b.data[k]
    {
      var ix := a.shape.Decode(k);
      assert a.Get(ix) == b.Get(ix);
    }
  }

  /**
   * The tensor of shape `s` whose cell `ix` holds f(ix): what foreach_assign
   * leaves in a freshly allocated buffer.
   */
  function Build(s: Shape, f: Index --> real): (r: Tensor)
    requires s.Valid()
    requires forall ix | s.Contains(ix) :: f.requires(ix)
    ensures r.Valid() && r.shape == s
    ensures forall ix | s.Contains(ix) :: r.Get(ix) == f(ix)
  {
    var r := Tensor(s, seq(s.Size(), k requires 0 <= k < s.Size() => f(s.Decode(k))));
    assert forall ix | s.Contains(ix) :: r.Get(ix) == f(ix) by {
      forall ix | s.Contains(ix)
        ensures r.Get(ix) == f(ix)
      {
        DecodeOffset(s, ix);
      }
    }
    r
  }

  /**
   * Tensor::foreach_assign on a fresh tensor of shape `s`: visits every
   * subscript in the order of the five nested loops (which is the order of
   * the linear index, lemma OffsetLexOrder) and stores f(ix) at its linear
   * index.
   */
  method ForeachAssign(s: Shape, f: Index --> real) returns (r: Tensor)
    requires s.Valid()
    requires forall ix | s.Contains(ix) :: f.requires(ix)
    ensures r == Build(s, f)
  {
    var buffer := new real[s.Size()];
    var k := 0;
    while k < buffer.Length
      invariant 0 <= k <= buffer.Length
      invariant forall j | 0 <= j < k :: buffer[j] == f(s.Decode(j))
    {
      var ix := s.Decode(k);
      buffer[s.Offset(ix)] := f(ix);
      k := k + 1;
    }
    r := Tensor(s, buffer[..]);
    forall ix | s.Contains(ix)
      ensures r.Get(ix) == f(ix)
    {
      DecodeOffset(s, ix);
    }
    Ext(r, Build(s, f));
  }

  /**
   * The tensor of shape `s` whose i-th buffer cell holds g(i): what
   * foreach_elem_assign leaves in a freshly allocated buffer.
   */
  function Fill(s: Shape, g: int --> real): (r: Tensor)
    requires s.Valid()
    requires forall i | 0 <= i < s.Size() :: g.requires(i)
    ensures r.Valid() && r.shape == s
    ensures forall i | 0 <= i < s.Size() :: r.data[i] == g(i)
  {
    Tensor(s, seq(s.Size(), g))
  }

  /** Tensor::foreach_elem_assign on a fresh tensor of shape `s`: one pass over the buffer. */
  method ForeachElemAssign(s: Shape, g: int --> real) returns (r: Tensor)
    requires s.Valid()
    requires forall i | 0 <= i < s.Size() :: g.requires(i)
    ensures r == Fill(s, g)
  {
    var buffer := new real[s.Size()];
    var i := 0;
    while i < buffer.Length
      invariant 0 <= i <= buffer.Length
      invariant forall j | 0 <= j < i :: buffer[j] == g(j)
    {
      buffer[i] := g(i);
      i := i + 1;
    }
    r := Tensor(s, buffer[..]);
  }

  /**
   * __foreach_elem_assign_: a tensor of the same shape whose every element
   * is f of the corresponding element.
   */
  function Map(t: Tensor, f: real -> real): (r: Tensor)
    requires t.Valid()
    ensures r.Valid() && r.shape == t.shape
    ensures forall i | 0 <= i < |t.data| :: r.data[i] == f(t.data[i])
    ensures forall ix | t.shape.Contains(ix) :: r.Get(ix) == f(t.Get(ix))
  {
    Fill(t.shape, i requires 0 <= i < |t.data| => f(t.data[i]))
  }

  /** Mapping with two functions in turn is mapping with their composition. */
  lemma MapMap(t: Tensor, f: real -> real, g: real -> real)
    requires t.Valid()
    ensures Map(Map(t, f), g) == Map(t, x => g(f(x)))
  {
    var a, b := Map(Map(t, f), g), Map(t, x => g(f(x)));
    assert a.data == b.data by {
      forall i | 0 <= i < |a.data|
        ensures a.data[i] == b.data[i]
      {
      }
    }
  }

  /** A tensor of shape `s` holding `c` everywhere. */
  function Constant(s: Shape, c: real): (r: Tensor)
    requires s.Valid()
    ensures r.Valid() && r.shape == s
    ensures forall ix | s.Contains(ix) :: r.Get(ix) == c
  {
    Fill(s, i => c)
  }

  /** Tensor::zeros */
  function Zeros(s: Shape): (r: Tensor)
    requires s.Valid()
    ensures r.Valid() && r.shape == s
    ensures forall ix | s.Contains(ix) :: r.Get(ix) == 0.0
  {
    Constant(s, 0.0)
  }

  /** Tensor::ones */
  function Ones(s: Shape): (r: Tensor)
    requires s.Valid()
    ensures r.Valid() && r.shape == s
    ensures forall ix | s.Contains(ix) :: r.Get(ix) == 1.0
  {
    Constant(s, 1.0)
  }

  /** Tensor::eye: an n-by-n identity matrix held in the height and channel axes. */
  function Eye(n: int): (r: Tensor)
    requires n >= 1
    ensures r.Valid() && r.shape == Shape(1, 1, 1, n, n)
    ensures forall ix | r.shape.Contains(ix) :: r.Get(ix) == if ix.i3 == ix.i4 then 1.0 else 0.0
  {
    Build(Shape(1, 1, 1, n, n), (ix: Index) => if ix.i3 == ix.i4 then 1.0 else 0.0)
  }

  /** Tensor::find_min: the smallest element, scanning from the first. */
  method FindMin(t: Tensor) returns (m: real)
    requires t.Valid()
    ensures m in t.data
    ensures forall i | 0 <= i < |t.data| :: m <= t.data[i]
  {
    m := t.data[0];
    var i := 0;
    while i < |t.data|
      invariant 0 <= i <= |t.data|
      invariant m in t.data
      invariant forall j | 0 <= j < i :: m <= t.data[j]
    {
      if t.data[i] < m {
        m := t.data[i];
      }
      i := i + 1;
    }
  }

  /** Tensor::find_max: the largest element, scanning from the first. */
  method FindMax(t: Tensor) returns (m: real)
    requires t.Valid()
    ensures m in t.data
    ensures forall i | 0 <= i < |t.data| :: m >= t.data[i]
  {
    m := t.data[0];
    var i := 0;
    while i < |t.data|
      invariant 0 <= i <= |t.data|
      invariant m in t.data
      invariant forall j | 0 <= j < i :: m >= t.data[j]
    {
      if t.data[i] > m {
        m := t.data[i];
      }
      i := i + 1;
    }
  }
}
