/**
 * An arena view of an nGraph function: nodes are addressed by their index, each node has
 * an op tag, a friendly name, the indices of the nodes feeding its inputs (every op used
 * by the rewrites has a single output), its output's shape and element type, and, for a
 * Constant, its values.
 */
module Graphs {
  import opened Wrappers
  import opened ElementTypes
  import opened PartialShapes

  datatype OpKind =
    | ParameterOp | ConstantOp | ResultOp
    | AddOp | SubtractOp | MultiplyOp | DivideOp | NegativeOp | ConvertOp
    | TransposeOp | UnsqueezeOp | FakeQuantizeOp
    | ConvolutionOp | GroupConvolutionOp | ConvolutionBackpropDataOp | MatMulOp
    | OtherOp

  datatype Node = Node(kind: OpKind, name: string, inputs: seq<nat>, shape: PartialShape,
                       elementType: ElementType, values: seq<real>)

  /** Every input of every node refers to a node of the graph. */
  predicate Closed(nodes: seq<Node>) {
    forall i, j :: 0 <= i < |nodes| && 0 <= j < |nodes[i].inputs| ==> nodes[i].inputs[j] < |nodes|
  }

  /** All nodes read only nodes with a smaller index, so the graph has no cycle. */
  predicate Topological(nodes: seq<Node>) {
    forall i, j :: 0 <= i < |nodes| && 0 <= j < |nodes[i].inputs| ==> nodes[i].inputs[j] < i
  }

  predicate InputsIn(n: Node, size: nat) {
    forall j :: 0 <= j < |n.inputs| ==> n.inputs[j] < size
  }

  /** The kind of the node feeding input j of node i, if there is one. */
  predicate InputIs(nodes: seq<Node>, i: nat, j: nat, k: OpKind)
    requires Closed(nodes) && i < |nodes|
  {
    j < |nodes[i].inputs| && nodes[nodes[i].inputs[j]].kind == k
  }

  // ---------------------------------------------------------------------------
  // Uses and replace_node

  /** The number of node inputs that read node `target` (the consumers of its output). */
  function UseCount(nodes: seq<Node>, target: nat): (n: nat)
  {
    if nodes == [] then 0 else UseCount(nodes[..|nodes| - 1], target) + Count(nodes[|nodes| - 1].inputs, target)
  }

  function Count(s: seq<nat>, x: nat): (n: nat)
    ensures n <= |s|
    ensures n == 0 <==> x !in s
  {
    if s == [] then 0 else Count(s[..|s| - 1], x) + (if s[|s| - 1] == x then 1 else 0)
  }

  /** Input list s with every use of `from` redirected to `to`. */
  function Redirect(s: seq<nat>, from: nat, to: nat): (r: seq<nat>)
    ensures |r| == |s|
    ensures forall j :: 0 <= j < |s| ==> r[j] == (if s[j] == from then to else s[j])
  {
    seq(|s|, j requires 0 <= j < |s| => if s[j] == from then to else s[j])
  }

  /** The graph after replace_node(from, to): every consumer of `from` now reads `to`. */
  function ReplaceUses(nodes: seq<Node>, from: nat, to: nat): (r: seq<Node>)
    ensures |r| == |nodes|
    ensures forall i :: 0 <= i < |nodes| ==> r[i] == nodes[i].(inputs := Redirect(nodes[i].inputs, from, to))
  {
    seq(|nodes|, i requires 0 <= i < |nodes| => nodes[i].(inputs := Redirect(nodes[i].inputs, from, to)))
  }

  /** After redirecting, `from` is gone, `to` has both counts, and every other value keeps its count. */
  function RedirectedCount(s: seq<nat>, from: nat, to: nat, x: nat): nat {
    if x == from then 0 else if x == to then Count(s, to) + Count(s, from) else Count(s, x)
  }

  lemma {:induction false} CountRedirect(s: seq<nat>, from: nat, to: nat, x: nat)
    requires from != to
    ensures Count(Redirect(s, from, to), x) == RedirectedCount(s, from, to, x)
  {
    if s != [] {
      var s' := s[..|s| - 1];
      CountRedirect(s', from, to, x);
      assert Redirect(s, from, to)[..|s| - 1] == Redirect(s', from, to);
    }
  }

  /**
   * replace_node moves every use of `from` to `to`: afterwards nothing reads `from`, `to`
   * has the uses of both, and every other node keeps its consumers.
   */
  lemma {:induction false} ReplaceUsesMovesConsumers(nodes: seq<Node>, from: nat, to: nat, x: nat)
    requires from != to
    ensures UseCount(ReplaceUses(nodes, from, to), x) ==
            if x == from then 0
            else if x == to then UseCount(nodes, to) + UseCount(nodes, from)
            else UseCount(nodes, x)
  {
    if nodes != [] {
      var n := |nodes|;
      var prefix := nodes[..n - 1];
      ReplaceUsesMovesConsumers(prefix, from, to, x);
      assert ReplaceUses(nodes, from, to)[..n - 1] == ReplaceUses(prefix, from, to);
      CountRedirect(nodes[n - 1].inputs, from, to, x);
    }
  }

  /** replace_node keeps the graph closed when both nodes are in it. */
  lemma {:induction false} ReplaceUsesKeepsClosed(nodes: seq<Node>, from: nat, to: nat)
    requires Closed(nodes) && to < |nodes|
    ensures Closed(ReplaceUses(nodes, from, to))
  {
  }

  /** replace_node changes only inputs: kinds, names, shapes and values stay. */
  lemma {:induction false} ReplaceUsesKeepsNodes(nodes: seq<Node>, from: nat, to: nat, i: nat)
    requires i < |nodes|
    ensures var r := ReplaceUses(nodes, from, to);
            r[i].kind == nodes[i].kind && r[i].name == nodes[i].name && r[i].shape == nodes[i].shape &&
            r[i].elementType == nodes[i].elementType && r[i].values == nodes[i].values &&
            |r[i].inputs| == |nodes[i].inputs|
  {
  }

  /** A node that did not read `from` is left exactly as it was. */
  lemma {:induction false} ReplaceUsesLeavesNonConsumers(nodes: seq<Node>, from: nat, to: nat, i: nat)
    requires i < |nodes| && from !in nodes[i].inputs
    ensures ReplaceUses(nodes, from, to)[i] == nodes[i]
  {
    assert Redirect(nodes[i].inputs, from, to) == nodes[i].inputs;
  }

  lemma {:induction false} UseCountAppend(nodes: seq<Node>, n: Node, x: nat)
    ensures UseCount(nodes + [n], x) == UseCount(nodes, x) + Count(n.inputs, x)
  {
    assert (nodes + [n])[..|nodes + [n]| - 1] == nodes;
  }

  // ---------------------------------------------------------------------------
  // The graph object

  /** The graph the rewrites edit in place. */
  class Graph {
    var nodes: seq<Node>

    ghost predicate Valid()
      reads this
    {
      Closed(nodes)
    }

    constructor (nodes: seq<Node>)
      requires Closed(nodes)
      ensures this.nodes == nodes && Valid()
    {
      this.nodes := nodes;
    }

    /** Creates a node that reads existing nodes and returns its index. */
    method AddNode(n: Node) returns (id: nat)
      requires Valid() && InputsIn(n, |nodes|)
      modifies this
      ensures nodes == old(nodes) + [n] && id == |old(nodes)|
      ensures Valid()
    {
      id := |nodes|;
      nodes := nodes + [n];
    }

    /** replace_node(from, to): every consumer of `from` is rewired to `to`. */
    method ReplaceNode(from: nat, to: nat)
      requires Valid() && from < |nodes| && to < |nodes|
      modifies this
      ensures nodes == ReplaceUses(old(nodes), from, to)
      ensures Valid()
    {
      ReplaceUsesKeepsClosed(nodes, from, to);
      nodes := ReplaceUses(nodes, from, to);
    }

    /** set_friendly_name. */
    method SetFriendlyName(i: nat, name: string)
      requires Valid() && i < |nodes|
      modifies this
      ensures nodes == old(nodes)[i := old(nodes)[i].(name := name)]
      ensures Valid()
    {
      nodes := nodes[i := nodes[i].(name := name)];
    }
  }
}
