/**
 * Session: the constructor collects the graph below a root, and run walks
 * the collected operations list in order, caching on each node what its
 * compute makes of its inputs' cached outputs.
 *
 * The walk covers only the operations list, so the placeholder and
 * variable branches of run are never taken: a placeholder keeps whatever
 * output it had, and the feed dictionary is never read.
 */
module Sessions {

  import opened Tensors
  import opened Operations
  import opened Nodes
  import opened Collecting

  /**
   * What an operation node makes of its inputs' cached outputs. Session::run
   * calls each node's compute, which is Operations.Compute; the facts about
   * the walk below hold whatever that function is, so they take it as a
   * parameter.
   */
  type ComputeFn = (OpKind, seq<Option<Tensor>>) -> Option<Tensor>

  /** The output one iteration of run caches on node i. */
  function StepOutput(nodes: seq<Node>, i: nat, feed: map<nat, Tensor>, compute: ComputeFn): (r: Option<Tensor>)
    requires i < |nodes|
    ensures nodes[i].kind.Placeholder? ==> (r.Some? <==> i in feed) && (i in feed ==> r.value == feed[i])
    ensures nodes[i].kind.Variable? ==> r == Some(nodes[i].kind.value)
  {
    match nodes[i].kind
    case Placeholder(_) => if i in feed then Some(feed[i]) else None
    case Variable(_, _, _, value) => Some(value)
    case Operation(op) => compute(op, InputValues(nodes, i))
  }

  /** One iteration of run: node i's cached output replaced, nothing else. */
  function Step(nodes: seq<Node>, i: nat, feed: map<nat, Tensor>, compute: ComputeFn): seq<Node>
    requires i < |nodes|
  {
    nodes[i := nodes[i].(output := StepOutput(nodes, i, feed, compute))]
  }

  /** Two arenas with the same nodes and wiring, whatever their cached outputs. */
  predicate SameWiring(a: seq<Node>, b: seq<Node>) {
    |a| == |b| &&
    forall j | 0 <= j < |a| :: a[j].kind == b[j].kind && a[j].inputs == b[j].inputs && a[j].consumers == b[j].consumers
  }

  /** The arena after run has walked `ops`; run changes cached outputs only. */
  function RunAll(nodes: seq<Node>, ops: seq<nat>, feed: map<nat, Tensor>, compute: ComputeFn): (r: seq<Node>)
    requires InArena(nodes, ops)
    ensures SameWiring(r, nodes)
    decreases |ops|
  {
    if ops == [] then nodes
    else Step(RunAll(nodes, ops[..|ops| - 1], feed, compute), ops[|ops| - 1], feed, compute)
  }

  lemma RunAllExtends(nodes: seq<Node>, ops: seq<nat>, k: nat, feed: map<nat, Tensor>, compute: ComputeFn)
    requires InArena(nodes, ops) && k < |ops|
    ensures InArena(nodes, ops[..k]) && InArena(nodes, ops[..k + 1])
    ensures RunAll(nodes, ops[..k + 1], feed, compute) == Step(RunAll(nodes, ops[..k], feed, compute), ops[k], feed, compute)
  {
    assert ops[..k + 1][..k] == ops[..k];
  }

  /**
   * The value of node i as the graph defines it: a leaf's cached output,
   * or an operation's compute of the values of its inputs.
   */
  function Eval(nodes: seq<Node>, i: nat, compute: ComputeFn): Option<Tensor>
    requires Wired(nodes) && i < |nodes|
    decreases Rank(nodes, i), 1
  {
    if nodes[i].kind.Operation? then compute(nodes[i].kind.op, EvalInputs(nodes, i, compute)) else nodes[i].output
  }

  function EvalInputs(nodes: seq<Node>, i: nat, compute: ComputeFn): (r: seq<Option<Tensor>>)
    requires Wired(nodes) && IsOperation(nodes, i)
    ensures |r| == |nodes[i].inputs|
    decreases Rank(nodes, i), 0
  {
    seq(|nodes[i].inputs|, k requires 0 <= k < |nodes[i].inputs| =>
      RankFalls(nodes, i, k);
      Eval(nodes, nodes[i].inputs[k], compute))
  }

  /** Node j of `cur` caches the value the graph defines for it. */
  predicate Caches(nodes: seq<Node>, cur: seq<Node>, j: nat, compute: ComputeFn)
    requires Wired(nodes)
  {
    j < |nodes| && j < |cur| && cur[j].output == Eval(nodes, j, compute)
  }

  /**
   * Run has evaluated the operations in `done`: each caches its value, and
   * every leaf still caches what it did before the run.
   */
  predicate Evaluated(nodes: seq<Node>, cur: seq<Node>, done: seq<nat>, compute: ComputeFn)
    requires Wired(nodes)
  {
    SameWiring(cur, nodes) &&
    (forall p | 0 <= p < |done| :: Caches(nodes, cur, done[p], compute)) &&
    (forall j | 0 <= j < |nodes| && !nodes[j].kind.Operation? :: cur[j].output == nodes[j].output)
  }

  lemma PostOrderedPrefix(nodes: seq<Node>, ops: seq<nat>, n: nat)
    requires Wired(nodes) && PostOrdered(nodes, ops) && n <= |ops|
    ensures PostOrdered(nodes, ops[..n])
  {
    var pre := ops[..n];
    forall p | 0 <= p < n
      ensures pre[p] < |nodes| && FollowsItsInputs(nodes, pre, p)
    {
      assert pre[p] == ops[p] && FollowsItsInputs(nodes, ops, p);
      var start :| 0 <= start <= p && Segment(ops, start, p) == Collected(nodes, ops[p]).operations;
      assert Segment(pre, start, p) == Segment(ops, start, p);
    }
  }

  /** Before the step at ops[n], every input of that operation caches its value. */
  lemma InputsEvaluated(nodes: seq<Node>, ops: seq<nat>, n: nat, prev: seq<Node>, compute: ComputeFn)
    requires Wired(nodes) && PostOrdered(nodes, ops) && n < |ops|
    requires Evaluated(nodes, prev, ops[..n], compute)
    ensures IsOperation(nodes, ops[n]) && |prev| == |nodes|
    ensures InputValues(prev, ops[n]) == EvalInputs(nodes, ops[n], compute)
  {
    var i := ops[n];
    assert FollowsItsInputs(nodes, ops, n);
    forall k | 0 <= k < |nodes[i].inputs|
      ensures InputValues(prev, i)[k] == EvalInputs(nodes, i, compute)[k]
    {
      var j := nodes[i].inputs[k];
      RankFalls(nodes, i, k);
      if nodes[j].kind.Operation? {
        InputsBefore(nodes, ops, n, k);
        var q :| 0 <= q < n && ops[..n][q] == j;
      }
    }
  }

  /** The step at ops[n] caches the value the graph defines for that operation. */
  lemma StepCaches(nodes: seq<Node>, ops: seq<nat>, n: nat, prev: seq<Node>, feed: map<nat, Tensor>, compute: ComputeFn)
    requires Wired(nodes) && PostOrdered(nodes, ops) && n < |ops|
    requires Evaluated(nodes, prev, ops[..n], compute)
    ensures IsOperation(nodes, ops[n]) && ops[n] < |prev|
    ensures Step(prev, ops[n], feed, compute)[ops[n]].output == Eval(nodes, ops[n], compute)
  {
    InputsEvaluated(nodes, ops, n, prev, compute);
  }

  /** A step that caches an operation's value extends what run has evaluated by that operation. */
  lemma StepEvaluates(nodes: seq<Node>, prev: seq<Node>, done: seq<nat>, i: nat, feed: map<nat, Tensor>, compute: ComputeFn)
    requires Wired(nodes) && Evaluated(nodes, prev, done, compute) && IsOperation(nodes, i)
    requires Step(prev, i, feed, compute)[i].output == Eval(nodes, i, compute)
    ensures Evaluated(nodes, Step(prev, i, feed, compute), done + [i], compute)
  {
    var cur := Step(prev, i, feed, compute);
    forall p | 0 <= p < |done + [i]|
      ensures Caches(nodes, cur, (done + [i])[p], compute)
    {
      if p < |done| {
        assert (done + [i])[p] == done[p];
      }
    }
  }

  /** Walking a post-ordered list evaluates every operation in it. */
  lemma {:induction false} RunEvaluates(nodes: seq<Node>, ops: seq<nat>, n: nat, feed: map<nat, Tensor>, compute: ComputeFn)
    requires Wired(nodes) && PostOrdered(nodes, ops) && n <= |ops|
    ensures Evaluated(nodes, RunAll(nodes, ops[..n], feed, compute), ops[..n], compute)
  {
    if n > 0 {
      var i := ops[n - 1];
      RunAllExtends(nodes, ops, n - 1, feed, compute);
      var prev := RunAll(nodes, ops[..n - 1], feed, compute);
      assert Evaluated(nodes, prev, ops[..n - 1], compute) by {
        RunEvaluates(nodes, ops, n - 1, feed, compute);
      }
      assert IsOperation(nodes, i) && Step(prev, i, feed, compute)[i].output == Eval(nodes, i, compute) by {
        StepCaches(nodes, ops, n - 1, prev, feed, compute);
      }
      StepEvaluates(nodes, prev, ops[..n - 1], i, feed, compute);
      assert ops[..n] == ops[..n - 1] + [i];
    }
  }

  /**
   * Session(root) then run: every collected operation, the root last of
   * all, caches the value the graph defines for it, and every placeholder
   * and variable keeps the output it had.
   */
  lemma RunComputesGraph(nodes: seq<Node>, root: nat, feed: map<nat, Tensor>, compute: ComputeFn)
    requires Wired(nodes) && root < |nodes|
    ensures var ops := Collected(nodes, root).operations;
            InArena(nodes, ops) &&
            var after := RunAll(nodes, ops, feed, compute);
            (forall j | j in ops :: after[j].output == Eval(nodes, j, compute)) &&
            (nodes[root].kind.Operation? ==> after[root].output == Eval(nodes, root, compute)) &&
            (forall j | 0 <= j < |nodes| && !nodes[j].kind.Operation? :: after[j].output == nodes[j].output)
  {
    var ops := Collected(nodes, root).operations;
    CollectPostOrdered(nodes, root);
    RunEvaluates(nodes, ops, |ops|, feed, compute);
    assert ops[..|ops|] == ops;
    if nodes[root].kind.Operation? {
      RootLast(nodes, root);
    }
  }

  /** Over a list of operations only, run never reads the feed dictionary. */
  lemma {:induction false} RunIgnoresFeed(nodes: seq<Node>, ops: seq<nat>, feed1: map<nat, Tensor>, feed2: map<nat, Tensor>, compute: ComputeFn)
    requires forall p | 0 <= p < |ops| :: IsOperation(nodes, ops[p])
    ensures InArena(nodes, ops) && RunAll(nodes, ops, feed1, compute) == RunAll(nodes, ops, feed2, compute)
    decreases |ops|
  {
    if ops != [] {
      RunIgnoresFeed(nodes, ops[..|ops| - 1], feed1, feed2, compute);
    }
  }

  class Session {

    var graph: Graph

    /** Session(operation): collect the graph below the root. */
    constructor (nodes: seq<Node>, root: nat)
      requires Wired(nodes) && root < |nodes|
      ensures graph.Contents() == Collected(nodes, root)
    {
      var g := new Graph();
      g.Collect(nodes, root);
      graph := g;
    }

    /**
     * Session::run(feed_dict): for each collected node in order, a
     * placeholder would take its entry of the feed (a default-constructed
     * tensor where it has none), a variable its value, and an operation its
     * compute of the inputs' cached outputs.
     */
    method Run(arena: Arena, feed: map<nat, Tensor>)
      requires arena.Valid() && InArena(arena.nodes, graph.operations)
      modifies arena
      ensures arena.nodes == RunAll(old(arena.nodes), graph.operations, feed, Compute)
    {
      var ops := graph.operations;
      for k := 0 to |ops|
        invariant arena.nodes == RunAll(old(arena.nodes), ops[..k], feed, Compute)
      {
        var node := ops[k];
        var output: Option<Tensor>;
        match arena.nodes[node].kind {
          case Placeholder(_) =>
            output := if node in feed then Some(feed[node]) else None;
          case Variable(_, _, _, value) =>
            output := Some(value);
          case Operation(op) =>
            var inputs := arena.GetInputValues(node);
            output := Compute(op, inputs);
        }
        assert output == StepOutput(arena.nodes, node, feed, Compute);
        RunAllExtends(old(arena.nodes), ops, k, feed, Compute);
        arena.SetOutput(node, output);
      }
      assert ops[..|ops|] == ops;
    }
  }
}
