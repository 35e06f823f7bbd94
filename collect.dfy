/**
 * Graph::collect: a depth-first walk from the root over input edges that
 * files every node it meets into one of three lists, placeholders,
 * variables and operations, an operation only after all its inputs. The
 * walk keeps no visited set, so a node met along several paths is filed
 * once per path.
 */
module Collecting {

  import opened Nodes

  /** The three lists of a Graph. */
  datatype Lists = Lists(placeholders: seq<nat>, variables: seq<nat>, operations: seq<nat>) {
    function Then(other: Lists): Lists {
      Lists(placeholders + other.placeholders, variables + other.variables, operations + other.operations)
    }
  }

  const Empty := Lists([], [], [])

  /** Every entry of each list is a node of the arena of that list's kind. */
  predicate Filed(nodes: seq<Node>, l: Lists) {
    (forall k | 0 <= k < |l.placeholders| :: l.placeholders[k] < |nodes| && nodes[l.placeholders[k]].kind.Placeholder?) &&
    (forall k | 0 <= k < |l.variables| :: l.variables[k] < |nodes| && nodes[l.variables[k]].kind.Variable?) &&
    (forall k | 0 <= k < |l.operations| :: l.operations[k] < |nodes| && nodes[l.operations[k]].kind.Operation?)
  }

  /** What collect(root) appends to the three lists. */
  function Collected(nodes: seq<Node>, root: nat): Lists
    requires Wired(nodes) && root < |nodes|
    decreases Rank(nodes, root), 1, 0
  {
    match nodes[root].kind
    case Placeholder(_) => Lists([root], [], [])
    case Variable(_, _, _, _) => Lists([], [root], [])
    case Operation(_) => CollectInputs(nodes, root, |nodes[root].inputs|).Then(Lists([], [], [root]))
  }

  /** What the loop over the first n inputs of operation `owner` appends. */
  function CollectInputs(nodes: seq<Node>, owner: nat, n: nat): Lists
    requires Wired(nodes) && IsOperation(nodes, owner) && n <= |nodes[owner].inputs|
    decreases Rank(nodes, owner), 0, n
  {
    if n == 0 then Empty
    else
      RankFalls(nodes, owner, n - 1);
      CollectInputs(nodes, owner, n - 1).Then(Collected(nodes, nodes[owner].inputs[n - 1]))
  }

  /** collect files every node it meets into the list of that node's kind, and files the root itself. */
  lemma {:induction false} CollectFiled(nodes: seq<Node>, root: nat)
    requires Wired(nodes) && root < |nodes|
    ensures Filed(nodes, Collected(nodes, root))
    ensures root in ListOf(Collected(nodes, root), nodes, root)
    decreases Rank(nodes, root), 1, 0
  {
    if nodes[root].kind.Operation? {
      var ins := CollectInputs(nodes, root, |nodes[root].inputs|);
      CollectInputsFiled(nodes, root, |nodes[root].inputs|);
      FiledThen(nodes, ins, Lists([], [], [root]));
      assert Collected(nodes, root).operations == ins.operations + [root];
    }
  }

  lemma {:induction false} CollectInputsFiled(nodes: seq<Node>, owner: nat, n: nat)
    requires Wired(nodes) && IsOperation(nodes, owner) && n <= |nodes[owner].inputs|
    ensures Filed(nodes, CollectInputs(nodes, owner, n))
    decreases Rank(nodes, owner), 0, n
  {
    if n > 0 {
      RankFalls(nodes, owner, n - 1);
      var child := nodes[owner].inputs[n - 1];
      CollectInputsFiled(nodes, owner, n - 1);
      CollectFiled(nodes, child);
      FiledThen(nodes, CollectInputs(nodes, owner, n - 1), Collected(nodes, child));
    }
  }

  /** Joining two filed lists keeps them filed. */
  lemma FiledThen(nodes: seq<Node>, a: Lists, b: Lists)
    requires Filed(nodes, a) && Filed(nodes, b)
    ensures Filed(nodes, a.Then(b))
  {
    var l := a.Then(b);
    forall k | 0 <= k < |l.placeholders|
      ensures l.placeholders[k] < |nodes| && nodes[l.placeholders[k]].kind.Placeholder?
    {
      if k >= |a.placeholders| { assert l.placeholders[k] == b.placeholders[k - |a.placeholders|]; }
    }
    forall k | 0 <= k < |l.variables|
      ensures l.variables[k] < |nodes| && nodes[l.variables[k]].kind.Variable?
    {
      if k >= |a.variables| { assert l.variables[k] == b.variables[k - |a.variables|]; }
    }
    forall k | 0 <= k < |l.operations|
      ensures l.operations[k] < |nodes| && nodes[l.operations[k]].kind.Operation?
    {
      if k >= |a.operations| { assert l.operations[k] == b.operations[k - |a.operations|]; }
    }
  }

  /** The number of input paths from `root` down to node j (1 for j itself). */
  function Paths(nodes: seq<Node>, root: nat, j: nat): nat
    requires Wired(nodes) && root < |nodes|
    decreases Rank(nodes, root), 1, 0
  {
    (if root == j then 1 else 0) +
    (if nodes[root].kind.Operation? then PathsThroughInputs(nodes, root, |nodes[root].inputs|, j) else 0)
  }

  /** The paths to j that leave `owner` through one of its first n inputs. */
  function PathsThroughInputs(nodes: seq<Node>, owner: nat, n: nat, j: nat): nat
    requires Wired(nodes) && IsOperation(nodes, owner) && n <= |nodes[owner].inputs|
    decreases Rank(nodes, owner), 0, n
  {
    if n == 0 then 0
    else
      RankFalls(nodes, owner, n - 1);
      PathsThroughInputs(nodes, owner, n - 1, j) + Paths(nodes, nodes[owner].inputs[n - 1], j)
  }

  /** The list collect files node j into, by j's kind. */
  function ListOf(l: Lists, nodes: seq<Node>, j: nat): seq<nat>
    requires j < |nodes|
  {
    match nodes[j].kind
    case Placeholder(_) => l.placeholders
    case Variable(_, _, _, _) => l.variables
    case Operation(_) => l.operations
  }

  /** j occurs p times in the list of its kind, and never in the other two. */
  predicate CountedAs(l: Lists, nodes: seq<Node>, j: nat, p: nat)
    requires j < |nodes|
  {
    Occurrences(l.placeholders, j) == (if nodes[j].kind.Placeholder? then p else 0) &&
    Occurrences(l.variables, j) == (if nodes[j].kind.Variable? then p else 0) &&
    Occurrences(l.operations, j) == (if nodes[j].kind.Operation? then p else 0)
  }

  /**
   * No visited set: every node reachable from the root is filed into the
   * list of its kind once per path that reaches it, and into no other list.
   */
  lemma CollectCounts(nodes: seq<Node>, root: nat, j: nat)
    requires Wired(nodes) && root < |nodes| && j < |nodes|
    ensures CountedAs(Collected(nodes, root), nodes, j, Paths(nodes, root, j))
    ensures multiset(ListOf(Collected(nodes, root), nodes, j))[j] == Paths(nodes, root, j)
  {
    CollectedCounts(nodes, root, j);
  }

  lemma {:induction false} CollectedCounts(nodes: seq<Node>, root: nat, j: nat)
    requires Wired(nodes) && root < |nodes| && j < |nodes|
    ensures CountedAs(Collected(nodes, root), nodes, j, Paths(nodes, root, j))
    decreases Rank(nodes, root), 1, 0
  {
    if nodes[root].kind.Operation? {
      CollectInputsCounts(nodes, root, |nodes[root].inputs|, j);
      JoinCounts(CollectInputs(nodes, root, |nodes[root].inputs|), Lists([], [], [root]), nodes, j,
        PathsThroughInputs(nodes, root, |nodes[root].inputs|, j), if root == j then 1 else 0);
    }
  }

  lemma {:induction false} CollectInputsCounts(nodes: seq<Node>, owner: nat, n: nat, j: nat)
    requires Wired(nodes) && IsOperation(nodes, owner) && n <= |nodes[owner].inputs| && j < |nodes|
    ensures CountedAs(CollectInputs(nodes, owner, n), nodes, j, PathsThroughInputs(nodes, owner, n, j))
    decreases Rank(nodes, owner), 0, n
  {
    if n > 0 {
      RankFalls(nodes, owner, n - 1);
      var child := nodes[owner].inputs[n - 1];
      CollectInputsCounts(nodes, owner, n - 1, j);
      CollectedCounts(nodes, child, j);
      InputsCountsStep(nodes, owner, n, j);
    }
  }

  /** The counts for one more input are those for the earlier inputs plus those collected from it. */
  lemma InputsCountsStep(nodes: seq<Node>, owner: nat, n: nat, j: nat)
    requires Wired(nodes) && IsOperation(nodes, owner) && 0 < n <= |nodes[owner].inputs| && j < |nodes|
    requires CountedAs(CollectInputs(nodes, owner, n - 1), nodes, j, PathsThroughInputs(nodes, owner, n - 1, j))
    requires nodes[owner].inputs[n - 1] < |nodes|
    requires var child := nodes[owner].inputs[n - 1];
      CountedAs(Collected(nodes, child), nodes, j, Paths(nodes, child, j))
    ensures CountedAs(CollectInputs(nodes, owner, n), nodes, j, PathsThroughInputs(nodes, owner, n, j))
  {
    var child := nodes[owner].inputs[n - 1];
    InputsStep(nodes, owner, n, j);
    JoinCounts(CollectInputs(nodes, owner, n - 1), Collected(nodes, child), nodes, j,
      PathsThroughInputs(nodes, owner, n - 1, j), Paths(nodes, child, j));
  }

  /** One more input: what the loop files, and the paths it follows. */
  lemma InputsStep(nodes: seq<Node>, owner: nat, n: nat, j: nat)
    requires Wired(nodes) && IsOperation(nodes, owner) && 0 < n <= |nodes[owner].inputs|
    ensures nodes[owner].inputs[n - 1] < |nodes|
    ensures CollectInputs(nodes, owner, n) ==
      CollectInputs(nodes, owner, n - 1).Then(Collected(nodes, nodes[owner].inputs[n - 1]))
    ensures PathsThroughInputs(nodes, owner, n, j) ==
      PathsThroughInputs(nodes, owner, n - 1, j) + Paths(nodes, nodes[owner].inputs[n - 1], j)
  {
    RankFalls(nodes, owner, n - 1);
  }

  /** Counts add up when lists are joined. */
  lemma JoinCounts(a: Lists, b: Lists, nodes: seq<Node>, j: nat, p: nat, q: nat)
    requires j < |nodes| && CountedAs(a, nodes, j, p) && CountedAs(b, nodes, j, q)
    ensures CountedAs(a.Then(b), nodes, j, p + q)
  {
    assert multiset(a.Then(b).placeholders) == multiset(a.placeholders) + multiset(b.placeholders);
    assert multiset(a.Then(b).variables) == multiset(a.variables) + multiset(b.variables);
    assert multiset(a.Then(b).operations) == multiset(a.operations) + multiset(b.operations);
  }

  /** A shared input: an operation that reads one placeholder twice files it twice. */
  lemma SharedInputFiledTwice(nodes: seq<Node>, op: nat, x: nat)
    requires Wired(nodes) && IsOperation(nodes, op) && nodes[op].inputs == [x, x]
    requires x < |nodes| && nodes[x].kind.Placeholder?
    ensures multiset(Collected(nodes, op).placeholders)[x] == 2
  {
    CollectCounts(nodes, op, x);
    RankFalls(nodes, op, 0);
    assert Paths(nodes, x, x) == 1;
    assert PathsThroughInputs(nodes, op, 1, x) == 1;
  }

  /** The root operation is filed last. */
  lemma RootLast(nodes: seq<Node>, root: nat)
    requires Wired(nodes) && IsOperation(nodes, root)
    ensures var ops := Collected(nodes, root).operations;
            |ops| >= 1 && ops[|ops| - 1] == root
  {
  }

  /** Everything collected is a node of the arena. */
  predicate InArena(nodes: seq<Node>, s: seq<nat>) {
    forall p | 0 <= p < |s| :: s[p] < |nodes|
  }

  /** The stretch of `ops` from position start up to and including p. */
  function Segment(ops: seq<nat>, start: nat, p: nat): seq<nat>
    requires start <= p < |ops|
  {
    ops[start..p + 1]
  }

  /**
   * Entry p of `ops` is an operation directly preceded by the whole list
   * collect would produce from it.
   */
  predicate FollowsItsInputs(nodes: seq<Node>, ops: seq<nat>, p: nat)
    requires Wired(nodes) && p < |ops|
  {
    IsOperation(nodes, ops[p]) &&
    exists start | 0 <= start <= p :: Segment(ops, start, p) == Collected(nodes, ops[p]).operations
  }

  /**
   * Post-order: every operation in the list is directly preceded by the
   * whole list collect would produce from it, so it comes after every
   * operation reached through its inputs.
   */
  predicate PostOrdered(nodes: seq<Node>, ops: seq<nat>)
    requires Wired(nodes)
  {
    InArena(nodes, ops) && forall p | 0 <= p < |ops| :: FollowsItsInputs(nodes, ops, p)
  }

  lemma PostOrderedJoin(nodes: seq<Node>, a: seq<nat>, b: seq<nat>)
    requires Wired(nodes) && PostOrdered(nodes, a) && PostOrdered(nodes, b)
    ensures PostOrdered(nodes, a + b)
  {
    var ab := a + b;
    forall p | 0 <= p < |ab|
      ensures ab[p] < |nodes| && FollowsItsInputs(nodes, ab, p)
    {
      if p < |a| {
        assert ab[p] == a[p] && FollowsItsInputs(nodes, a, p);
        var start :| 0 <= start <= p && Segment(a, start, p) == Collected(nodes, a[p]).operations;
        assert Segment(ab, start, p) == Segment(a, start, p);
      } else {
        var q := p - |a|;
        assert ab[p] == b[q] && FollowsItsInputs(nodes, b, q);
        var start :| 0 <= start <= q && Segment(b, start, q) == Collected(nodes, b[q]).operations;
        assert Segment(ab, start + |a|, p) == Segment(b, start, q);
      }
    }
  }

  /** collect(root)'s operations list is post-ordered. */
  lemma {:induction false} CollectPostOrdered(nodes: seq<Node>, root: nat)
    requires Wired(nodes) && root < |nodes|
    ensures PostOrdered(nodes, Collected(nodes, root).operations)
    decreases Rank(nodes, root), 1, 0
  {
    if nodes[root].kind.Operation? {
      var ins := CollectInputs(nodes, root, |nodes[root].inputs|).operations;
      CollectInputsPostOrdered(nodes, root, |nodes[root].inputs|);
      assert Collected(nodes, root).operations == ins + [root];
      AppendRoot(nodes, ins, root);
    }
  }

  /** A post-ordered list followed by the operation whose collect it is stays post-ordered. */
  lemma AppendRoot(nodes: seq<Node>, ins: seq<nat>, root: nat)
    requires Wired(nodes) && PostOrdered(nodes, ins) && IsOperation(nodes, root)
    requires Collected(nodes, root).operations == ins + [root]
    ensures PostOrdered(nodes, ins + [root])
  {
    var ops := ins + [root];
    forall p | 0 <= p < |ops|
      ensures ops[p] < |nodes| && FollowsItsInputs(nodes, ops, p)
    {
      if p < |ins| {
        assert ops[p] == ins[p] && FollowsItsInputs(nodes, ins, p);
        var start :| 0 <= start <= p && Segment(ins, start, p) == Collected(nodes, ins[p]).operations;
        assert Segment(ops, start, p) == Segment(ins, start, p);
      } else {
        assert p == |ins| && ops[p] == root;
        assert ops[0..p + 1] == ops;
        assert Segment(ops, 0, p) == Collected(nodes, ops[p]).operations;
      }
    }
  }

  lemma {:induction false} CollectInputsPostOrdered(nodes: seq<Node>, owner: nat, n: nat)
    requires Wired(nodes) && IsOperation(nodes, owner) && n <= |nodes[owner].inputs|
    ensures PostOrdered(nodes, CollectInputs(nodes, owner, n).operations)
    decreases Rank(nodes, owner), 0, n
  {
    if n > 0 {
      RankFalls(nodes, owner, n - 1);
      CollectInputsPostOrdered(nodes, owner, n - 1);
      CollectPostOrdered(nodes, nodes[owner].inputs[n - 1]);
      PostOrderedJoin(nodes, CollectInputs(nodes, owner, n - 1).operations, Collected(nodes, nodes[owner].inputs[n - 1]).operations);
    }
  }

  /** Every operation input of `owner` among its first n is in the list the loop over them collects. */
  lemma {:induction false} InputCollected(nodes: seq<Node>, owner: nat, n: nat, k: nat)
    requires Wired(nodes) && IsOperation(nodes, owner) && k < n <= |nodes[owner].inputs|
    requires IsOperation(nodes, nodes[owner].inputs[k])
    ensures nodes[owner].inputs[k] in CollectInputs(nodes, owner, n).operations
    decreases n
  {
    RankFalls(nodes, owner, n - 1);
    if k == n - 1 {
      RootLast(nodes, nodes[owner].inputs[k]);
    } else {
      InputCollected(nodes, owner, n - 1, k);
    }
  }

  /**
   * In a post-ordered list every operation input of an operation occurs
   * before it: what Session::run needs to read only outputs already computed.
   */
  lemma InputsBefore(nodes: seq<Node>, ops: seq<nat>, p: nat, k: nat)
    requires Wired(nodes) && PostOrdered(nodes, ops) && p < |ops|
    requires k < |nodes[ops[p]].inputs| && IsOperation(nodes, nodes[ops[p]].inputs[k])
    ensures nodes[ops[p]].inputs[k] in ops[..p]
  {
    var i := ops[p];
    assert FollowsItsInputs(nodes, ops, p);
    var start :| 0 <= start <= p && Segment(ops, start, p) == Collected(nodes, i).operations;
    var ins := CollectInputs(nodes, i, |nodes[i].inputs|).operations;
    var x := nodes[i].inputs[k];
    InputCollected(nodes, i, |nodes[i].inputs|, k);
    assert Collected(nodes, i).operations == ins + [i];
    EarlierInSegment(ops, start, p, ins, x);
  }

  /** What a segment ending at p holds before its last entry lies before position p. */
  lemma EarlierInSegment(ops: seq<nat>, start: nat, p: nat, ins: seq<nat>, x: nat)
    requires start <= p < |ops| && Segment(ops, start, p) == ins + [ops[p]] && x in ins
    ensures x in ops[..p]
  {
    var m :| 0 <= m < |ins| && ins[m] == x;
    assert Segment(ops, start, p)[m] == ops[start + m];
    assert ops[..p][start + m] == x;
  }

  /** Graph: the three lists collect fills. */
  class Graph {

    var placeholders: seq<nat>
    var variables: seq<nat>
    var operations: seq<nat>

    constructor ()
      ensures placeholders == [] && variables == [] && operations == []
    {
      placeholders, variables, operations := [], [], [];
    }

    /** The lists as one value. */
    function Contents(): Lists
      reads this
    {
      Lists(placeholders, variables, operations)
    }

    /**
     * Graph::collect(root): a leaf is pushed onto its own list; an operation
     * is pushed after collect has run on each of its inputs in order.
     */
    method Collect(nodes: seq<Node>, root: nat)
      requires Wired(nodes) && root < |nodes|
      modifies this
      ensures Contents() == old(Contents()).Then(Collected(nodes, root))
      decreases Rank(nodes, root)
    {
      match nodes[root].kind
      case Placeholder(_) =>
        placeholders := placeholders + [root];
      case Variable(_, _, _, _) =>
        variables := variables + [root];
      case Operation(_) =>
        ghost var start := Contents();
        var inputs := nodes[root].inputs;
        for k := 0 to |inputs|
          invariant Contents() == start.Then(CollectInputs(nodes, root, k))
        {
          RankFalls(nodes, root, k);
          Collect(nodes, inputs[k]);
        }
        operations := operations + [root];
    }
  }
}
