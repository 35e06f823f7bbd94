/**
 * The nodes of the autograd graph and how they are wired.
 *
 * The engine links heap-allocated nodes by address. Here every node lives
 * in an arena, and a node's address is its index in it. A placeholder or a
 * variable is a leaf; an operation lists its input nodes, and every node
 * lists the operations registered as its consumers. Each node caches the
 * output the last forward pass gave it.
 */
module Nodes {

  import opened Shapes
  import opened Tensors
  import opened Operations

  datatype NodeKind =
    | Placeholder(shape: Shape)
    | Variable(name: string, shape: Shape, trainable: bool, value: Tensor)
    | Operation(op: OpKind)

  datatype Node = Node(kind: NodeKind, inputs: seq<nat>, consumers: seq<nat>, output: Option<Tensor>)

  predicate IsOperation(nodes: seq<Node>, i: nat) {
    i < |nodes| && nodes[i].kind.Operation?
  }

  /**
   * The arena is well wired: leaves have no inputs, and every input of an
   * operation is an earlier node or a leaf (a weight appended by add_weight
   * comes after its operation). So following inputs always ends.
   */
  predicate Wired(nodes: seq<Node>) {
    forall i | 0 <= i < |nodes| ::
      (!nodes[i].kind.Operation? ==> nodes[i].inputs == []) &&
      forall k | 0 <= k < |nodes[i].inputs| ::
        nodes[i].inputs[k] < |nodes| && (nodes[i].inputs[k] < i || !nodes[nodes[i].inputs[k]].kind.Operation?)
  }

  /**
   * Every registered consumer really reads the node: it is an operation of
   * the arena, and it is registered at most as often as it lists the node
   * among its inputs (weights appended by add_weight are never registered).
   */
  predicate ConsumersSound(nodes: seq<Node>) {
    forall j | 0 <= j < |nodes| ::
      forall m | 0 <= m < |nodes[j].consumers| ::
        var i := nodes[j].consumers[m];
        IsOperation(nodes, i) && Occurrences(nodes[j].consumers, i) <= Occurrences(nodes[i].inputs, j)
  }

  /** The measure that falls along every input edge of a wired arena. */
  function Rank(nodes: seq<Node>, i: nat): nat {
    if IsOperation(nodes, i) then i + 1 else 0
  }

  lemma RankFalls(nodes: seq<Node>, i: nat, k: nat)
    requires Wired(nodes) && IsOperation(nodes, i) && k < |nodes[i].inputs|
    ensures nodes[i].inputs[k] < |nodes| && Rank(nodes, nodes[i].inputs[k]) < Rank(nodes, i)
  {
  }

  /** The number of times x occurs in s. */
  function Occurrences(s: seq<nat>, x: nat): nat {
    multiset(s)[x]
  }

  /** id, n times. */
  function Repeat(id: nat, n: nat): (r: seq<nat>)
    ensures |r| == n && forall k | 0 <= k < n :: r[k] == id
  {
    seq(n, _ => id)
  }

  /** id occurs n times in Repeat(id, n), and nothing else occurs. */
  lemma {:induction false} RepeatCount(id: nat, n: nat, x: nat)
    ensures Occurrences(Repeat(id, n), x) == if x == id then n else 0
  {
    if n > 0 {
      RepeatCount(id, n - 1, x);
      assert Repeat(id, n) == Repeat(id, n - 1) + [id];
    }
  }

  /** Registering a new operation with its inputs keeps the consumers sound. */
  lemma RegisteredSound(before: seq<Node>, after: seq<Node>, op: OpKind, inputs: seq<nat>)
    requires ConsumersSound(before)
    requires |after| == |before| + 1 && after[|before|] == Node(Operation(op), inputs, [], None)
    requires forall j | 0 <= j < |before| ::
      after[j] == before[j].(consumers := before[j].consumers + Repeat(|before|, Occurrences(inputs, j)))
    ensures ConsumersSound(after)
  {
    var id := |before|;
    forall j, m | 0 <= j < |after| && 0 <= m < |after[j].consumers|
      ensures var i := after[j].consumers[m];
              IsOperation(after, i) && Occurrences(after[j].consumers, i) <= Occurrences(after[i].inputs, j)
    {
      var i := after[j].consumers[m];
      var old_ := before[j].consumers;
      var n := Occurrences(inputs, j);
      assert multiset(after[j].consumers) == multiset(old_) + multiset(Repeat(id, n));
      RepeatCount(id, n, i);
      if m < |old_| {
        assert old_[m] == i;
        assert IsOperation(before, i);
      }
    }
  }

  /** Appending a weight to an operation's inputs, unregistered, keeps the arena wired and the consumers sound. */
  lemma WeightSound(before: seq<Node>, op: nat, weight: Node)
    requires Wired(before) && ConsumersSound(before) && IsOperation(before, op)
    requires !weight.kind.Operation? && weight.inputs == [] && weight.consumers == []
    ensures var w := |before|;
            var after := before[op := before[op].(inputs := before[op].inputs + [w])] + [weight];
            Wired(after) && ConsumersSound(after)
  {
    var w := |before|;
    var after := before[op := before[op].(inputs := before[op].inputs + [w])] + [weight];
    forall j, m | 0 <= j < |after| && 0 <= m < |after[j].consumers|
      ensures var i := after[j].consumers[m];
              IsOperation(after, i) && Occurrences(after[j].consumers, i) <= Occurrences(after[i].inputs, j)
    {
      var i := after[j].consumers[m];
      assert j < w && after[j].consumers == before[j].consumers;
      assert IsOperation(before, i);
      assert multiset(after[i].inputs)[j] >= multiset(before[i].inputs)[j];
    }
  }

  /** The cached outputs of node i's inputs, in input order. */
  function InputValues(nodes: seq<Node>, i: nat): (r: seq<Option<Tensor>>)
    requires i < |nodes|
    ensures |r| == |nodes[i].inputs|
    ensures forall k | 0 <= k < |r| && nodes[i].inputs[k] < |nodes| :: r[k] == nodes[nodes[i].inputs[k]].output
  {
    seq(|nodes[i].inputs|, k requires 0 <= k < |nodes[i].inputs| =>
      var j := nodes[i].inputs[k];
      if j < |nodes| then nodes[j].output else None)
  }

  /** The heap of nodes: a new node takes the next free index. */
  class Arena {

    var nodes: seq<Node>

    predicate Valid()
      reads this
    {
      Wired(nodes) && ConsumersSound(nodes)
    }

    constructor ()
      ensures Valid() && nodes == []
    {
      nodes := [];
    }

    /** new Placeholder(shape): a leaf with no cached output yet. */
    method AddPlaceholder(shape: Shape) returns (id: nat)
      requires Valid()
      modifies this
      ensures Valid()
      ensures id == |old(nodes)| && nodes == old(nodes) + [Node(Placeholder(shape), [], [], None)]
    {
      id := |nodes|;
      nodes := nodes + [Node(Placeholder(shape), [], [], None)];
    }

    /**
     * new Variable(name, shape, trainable): its value is Tensor::random(shape);
     * the random generator is the parameter `random`.
     */
    method AddVariable(name: string, shape: Shape, trainable: bool, random: Shape -> Tensor) returns (id: nat)
      requires Valid()
      modifies this
      ensures Valid()
      ensures id == |old(nodes)| && nodes == old(nodes) + [Node(Variable(name, shape, trainable, random(shape)), [], [], None)]
    {
      id := |nodes|;
      nodes := nodes + [Node(Variable(name, shape, trainable, random(shape)), [], [], None)];
    }

    /**
     * The Operation constructor: the new node records its inputs, then
     * registers itself as a consumer of each of them, once per occurrence
     * and in input order. Nothing else about the existing nodes changes.
     */
    method AddOperation(op: OpKind, inputs: seq<nat>) returns (id: nat)
      requires Valid()
      requires forall k | 0 <= k < |inputs| :: inputs[k] < |nodes|
      modifies this
      ensures Valid()
      ensures id == |old(nodes)| && |nodes| == id + 1
      ensures nodes[id] == Node(Operation(op), inputs, [], None)
      ensures forall j | 0 <= j < id ::
        nodes[j] == old(nodes[j]).(consumers := old(nodes[j].consumers) + Repeat(id, Occurrences(inputs, j)))
    {
      id := |nodes|;
      ghost var before := nodes;
      nodes := nodes + [Node(Operation(op), inputs, [], None)];
      for k := 0 to |inputs|
        invariant |nodes| == id + 1 && nodes[id] == Node(Operation(op), inputs, [], None)
        invariant forall j | 0 <= j < id ::
          nodes[j] == before[j].(consumers := before[j].consumers + Repeat(id, Occurrences(inputs[..k], j)))
      {
        Register(inputs[k], id);
        assert inputs[..k + 1] == inputs[..k] + [inputs[k]];
      }
      assert inputs[..|inputs|] == inputs;
      RegisteredSound(before, nodes, op, inputs);
    }

    /** (*iter)->consumers.push_back(this): one more consumer of node j. */
    method Register(j: nat, consumer: nat)
      requires j < |nodes|
      modifies this
      ensures nodes == old(nodes)[j := old(nodes[j]).(consumers := old(nodes[j].consumers) + [consumer])]
    {
      nodes := nodes[j := nodes[j].(consumers := nodes[j].consumers + [consumer])];
    }

    /**
     * Operation::add_weight: a new variable, appended to the operation's
     * inputs after those it was constructed with. The operation is NOT
     * registered as the weight's consumer.
     */
    method AddWeight(op: nat, name: string, shape: Shape, trainable: bool, random: Shape -> Tensor) returns (w: nat)
      requires Valid() && IsOperation(nodes, op)
      modifies this
      ensures Valid()
      ensures w == |old(nodes)| && |nodes| == w + 1
      ensures nodes[w] == Node(Variable(name, shape, trainable, random(shape)), [], [], None)
      ensures nodes[..w] == old(nodes)[op := old(nodes[op]).(inputs := old(nodes[op].inputs) + [w])]
    {
      w := |nodes|;
      WeightSound(nodes, op, Node(Variable(name, shape, trainable, random(shape)), [], [], None));
      nodes := nodes[op := nodes[op].(inputs := nodes[op].inputs + [w])] + [Node(Variable(name, shape, trainable, random(shape)), [], [], None)];
    }

    /**
     * Operation::build(input_shape): a convolution appends its kernel and
     * bias, FullConnected its weight and bias, each a trainable variable of
     * the shape WeightShapes infers; any other operation builds nothing.
     */
    method Build(op: nat, inputShape: Shape, random: Shape -> Tensor)
      requires Valid() && IsOperation(nodes, op)
      modifies this
      ensures Valid()
      ensures var n, shapes, names := |old(nodes)|, WeightShapes(old(nodes[op].kind.op), inputShape), WeightNames(old(nodes[op].kind.op));
        |nodes| == n + |shapes| &&
        nodes[op] == old(nodes[op]).(inputs := old(nodes[op].inputs) + seq(|shapes|, k => n + k)) &&
        (forall j | 0 <= j < n && j != op :: nodes[j] == old(nodes[j])) &&
        forall k | 0 <= k < |shapes| :: nodes[n + k] == Node(Variable(names[k], shapes[k], true, random(shapes[k])), [], [], None)
    {
      var kind := nodes[op].kind.op;
      var shapes, names := WeightShapes(kind, inputShape), WeightNames(kind);
      if |shapes| == 2 {
        ghost var before, n := nodes, |nodes|;
        var kernel := AddWeight(op, names[0], shapes[0], true, random);
        ghost var middle := nodes;
        var bias := AddWeight(op, names[1], shapes[1], true, random);
        forall j | 0 <= j < n && j != op
          ensures nodes[j] == before[j]
        {
          assert nodes[j] == nodes[..n + 1][j] && middle[j] == middle[..n][j];
        }
        assert nodes[op] == nodes[..n + 1][op] && middle[op] == middle[..n][op];
        assert seq(2, k => kernel + k) == [kernel, bias];
      }
    }

    /** Node::setOutput: only node i's cached output changes. */
    method SetOutput(i: nat, output: Option<Tensor>)
      requires i < |nodes|
      modifies this
      ensures nodes == old(nodes)[i := old(nodes[i]).(output := output)]
    {
      nodes := nodes[i := nodes[i].(output := output)];
    }

    /** Operation::getInputValues: the loop over input_nodes collecting their cached outputs. */
    method GetInputValues(i: nat) returns (values: seq<Option<Tensor>>)
      requires Valid() && i < |nodes|
      ensures values == InputValues(nodes, i)
    {
      var inputs := nodes[i].inputs;
      values := [];
      for k := 0 to |inputs|
        invariant values == InputValues(nodes, i)[..k]
      {
        values := values + [nodes[inputs[k]].output];
      }
    }

    /** layers::minpooling as written: it constructs a MaxPooling. */
    method MinpoolingAsWritten(x: nat, width: int) returns (id: nat)
      requires Valid() && x < |nodes|
      modifies this
      ensures Valid() && id == |old(nodes)| && |nodes| == id + 1
      ensures nodes[id] == Node(Operation(MaxPooling(width)), [x], [], None)
      ensures nodes[x] == old(nodes[x]).(consumers := old(nodes[x].consumers) + [id])
      ensures forall j | 0 <= j < id && j != x :: nodes[j] == old(nodes[j])
    {
      id := AddOperation(MaxPooling(width), [x]);
      assert Occurrences([x], x) == 1;
      forall j | 0 <= j < id && j != x
        ensures nodes[j] == old(nodes[j])
      {
        assert Occurrences([x], j) == 0;
        assert Repeat(id, 0) == [];
      }
    }

    /** layers::minpooling as its name intends: a MinPooling node. */
    method Minpooling(x: nat, width: int) returns (id: nat)
      requires Valid() && x < |nodes|
      modifies this
      ensures Valid() && id == |old(nodes)| && |nodes| == id + 1
      ensures nodes[id] == Node(Operation(MinPooling(width)), [x], [], None)
      ensures nodes[x] == old(nodes[x]).(consumers := old(nodes[x].consumers) + [id])
      ensures forall j | 0 <= j < id && j != x :: nodes[j] == old(nodes[j])
    {
      id := AddOperation(MinPooling(width), [x]);
      assert Occurrences([x], x) == 1;
      forall j | 0 <= j < id && j != x
        ensures nodes[j] == old(nodes[j])
      {
        assert Occurrences([x], j) == 0;
        assert Repeat(id, 0) == [];
      }
    }
  }
}
