/**
 * The model-optimizer front replacements that turn FullyConnected and Gemm into MatMul:
 * the bias becomes a separate Add, the weights are reshaped (and transposed), 4D Caffe and
 * MXNet inputs are flattened, and Gemm's alpha and beta become Mul nodes.
 *
 * The graph is a sequence of nodes addressed by index. Each node has an op, an id, an
 * attribute dictionary and its in-ports: a map from port number to the source (node,
 * out-port) connected to it, or None for a port that exists but is disconnected.
 */
module MatMulNormalizer {
  import opened Wrappers

  // Error messages
  const InPortUnconnectedError := "in-port is not connected"
  const NoNameError := "FullyConnected node has no name"
  const NoOutSizeError := "FullyConnected node has no valid out-size"

  datatype Attr = IntAttr(i: int) | RealAttr(r: real) | BoolAttr(b: bool) | IntsAttr(ints: seq<int>) | StrAttr(s: string) | NoneAttr

  datatype Src = Src(node: nat, port: nat)

  type Ports = map<nat, Option<Src>>

  datatype MoNode = MoNode(op: string, id: string, attrs: map<string, Attr>, inputs: Ports)

  // ---------------------------------------------------------------------------
  // Attribute queries

  /** has_valid: the attribute is present and not None. */
  predicate HasValid(n: MoNode, k: string) {
    k in n.attrs && n.attrs[k] != NoneAttr
  }

  /** Python truthiness of an attribute value. */
  predicate Truthy(a: Attr) {
    match a
    case IntAttr(i) => i != 0
    case RealAttr(r) => r != 0.0
    case BoolAttr(b) => b
    case IntsAttr(v) => |v| > 0
    case StrAttr(s) => |s| > 0
    case NoneAttr => false
  }

  /** has_and_set: the attribute is valid and truthy. */
  predicate HasAndSet(n: MoNode, k: string) {
    HasValid(n, k) && Truthy(n.attrs[k])
  }

  /** soft_get('name', id): the name when it is valid, otherwise the node id. */
  function SoftName(n: MoNode): (r: string)
    requires NameTyped(n)
    ensures HasValid(n, "name") ==> r == n.attrs["name"].s
    ensures !HasValid(n, "name") ==> r == n.id
  {
    if HasValid(n, "name") then n.attrs["name"].s else n.id
  }

  /** A valid name is a string, a valid out-size an integer, valid alpha and beta numbers. */
  predicate NameTyped(n: MoNode) {
    HasValid(n, "name") ==> n.attrs["name"].StrAttr?
  }

  predicate AttrsTyped(n: MoNode) {
    && NameTyped(n)
    && (HasValid(n, "out-size") ==> n.attrs["out-size"].IntAttr?)
    && (HasValid(n, "alpha") ==> n.attrs["alpha"].IntAttr? || n.attrs["alpha"].RealAttr?)
    && (HasValid(n, "beta") ==> n.attrs["beta"].IntAttr? || n.attrs["beta"].RealAttr?)
  }

  function Number(a: Attr): real
    requires a.IntAttr? || a.RealAttr?
  {
    if a.IntAttr? then a.i as real else a.r
  }

  function Abs(x: real): real { if x < 0.0 then -x else x }
  function Max(x: real, y: real): real { if x < y then y else x }

  /** math.isclose with its default tolerances: |a - b| <= 1e-9 * max(|a|, |b|). */
  predicate IsClose(a: real, b: real) {
    Abs(a - b) <= Max(Abs(a), Abs(b)) / 1000000000.0
  }

  /**
   * Exactly the values within a relative 1e-9 of 1 are close to 1: from below down to
   * 1 - 1e-9, from above up to 1 / (1 - 1e-9). An alpha of 0 or 2 is never dropped.
   */
  lemma {:induction false} CloseToOneIsNearOne(a: real)
    ensures IsClose(a, 1.0) <==> 999999999.0 / 1000000000.0 <= a <= 1000000000.0 / 999999999.0
  {
    if a <= 1.0 {
      assert Abs(a - 1.0) == 1.0 - a;
      assert a >= 0.0 ==> Max(Abs(a), 1.0) == 1.0;
    } else {
      assert Abs(a - 1.0) == a - 1.0 && Max(Abs(a), 1.0) == a;
      assert a - 1.0 <= a / 1000000000.0 <==> a * 999999999.0 <= 1000000000.0;
    }
  }

  /** alpha (or beta) is applied: valid and not close to 1. */
  predicate Scales(n: MoNode, k: string)
    requires AttrsTyped(n) && k in {"alpha", "beta"}
  {
    HasValid(n, k) && !IsClose(Number(n.attrs[k]), 1.0)
  }

  // ---------------------------------------------------------------------------
  // Graph well-formedness

  predicate Connected(nodes: seq<MoNode>, n: nat, p: nat)
    requires n < |nodes|
  {
    p in nodes[n].inputs && nodes[n].inputs[p].Some?
  }

  /** Every connected in-port reads a node of the graph, and no node reads itself. */
  predicate Closed(nodes: seq<MoNode>) {
    forall i, p :: 0 <= i < |nodes| && p in nodes[i].inputs && nodes[i].inputs[p].Some? ==>
      nodes[i].inputs[p].value.node < |nodes| && nodes[i].inputs[p].value.node != i
  }

  /** The ports of a node appended at position size: their sources exist and are not itself. */
  predicate PortsIn(inputs: Ports, size: nat) {
    forall p :: p in inputs && inputs[p].Some? ==> inputs[p].value.node < size
  }

  // ---------------------------------------------------------------------------
  // Port operations

  /** The in-ports after every destination of `from` is moved to `to`. */
  function Retarget(inputs: Ports, from: Src, to: Src): (r: Ports)
    ensures r.Keys == inputs.Keys
    ensures forall p :: p in inputs ==> r[p] == if inputs[p] == Some(from) then Some(to) else inputs[p]
  {
    map p | p in inputs :: if inputs[p] == Some(from) then Some(to) else inputs[p]
  }

  /** Out-port set_source: all nodes reading `from` read `to` instead. */
  function SetSourceOf(nodes: seq<MoNode>, from: Src, to: Src): (r: seq<MoNode>)
    ensures |r| == |nodes|
    ensures forall i :: 0 <= i < |nodes| ==> r[i] == nodes[i].(inputs := Retarget(nodes[i].inputs, from, to))
  {
    seq(|nodes|, i requires 0 <= i < |nodes| => nodes[i].(inputs := Retarget(nodes[i].inputs, from, to)))
  }

  /** After set_source nothing reads the old source, and each former reader reads the new one. */
  lemma {:induction false} SetSourceMovesReaders(nodes: seq<MoNode>, from: Src, to: Src, i: nat, p: nat)
    requires from != to && i < |nodes| && p in nodes[i].inputs
    ensures var r := SetSourceOf(nodes, from, to);
            && p in r[i].inputs
            && r[i].inputs[p] != Some(from)
            && (nodes[i].inputs[p] == Some(from) ==> r[i].inputs[p] == Some(to))
            && (nodes[i].inputs[p] != Some(from) ==> r[i].inputs[p] == nodes[i].inputs[p])
  {
    var r := SetSourceOf(nodes, from, to);
    assert r[i].inputs == Retarget(nodes[i].inputs, from, to);
  }

  /** A node that does not read `from` keeps its ports under set_source. */
  lemma {:induction false} RetargetUnread(inputs: Ports, from: Src, to: Src)
    requires forall p :: p in inputs ==> inputs[p] != Some(from)
    ensures Retarget(inputs, from, to) == inputs
  {
  }

  /** The source connected to port p, None when the port is missing or disconnected. */
  function PortSource(n: MoNode, p: nat): Option<Src> {
    if p in n.inputs then n.inputs[p] else None
  }

  function SetPort(n: MoNode, p: nat, src: Option<Src>): MoNode {
    n.(inputs := n.inputs[p := src])
  }

  function SetAttr(n: MoNode, k: string, a: Attr): MoNode {
    n.(attrs := n.attrs[k := a])
  }

  /** A Const node holding value. */
  function ConstNode(value: Attr): MoNode {
    MoNode("Const", "", map["value" := value], map[])
  }

  predicate IsConst(nodes: seq<MoNode>, src: Option<Src>, value: Attr) {
    src.Some? && src.value.port == 0 && src.value.node < |nodes| &&
    nodes[src.value.node].op == "Const" && "value" in nodes[src.value.node].attrs &&
    nodes[src.value.node].attrs["value"] == value
  }

  /** An op with in-ports 0 and 1, both disconnected. */
  function NewOp(op: string, attrs: map<string, Attr>): MoNode {
    MoNode(op, "", attrs, map[0 := None, 1 := None])
  }

  class MoGraph {
    var nodes: seq<MoNode>
    const fw: string

    ghost predicate Valid()
      reads this
    {
      Closed(nodes)
    }

    constructor (nodes0: seq<MoNode>, fw0: string)
      requires Closed(nodes0)
      ensures Valid() && nodes == nodes0 && fw == fw0
    {
      nodes := nodes0;
      fw := fw0;
    }

    /** create_node: appends a node; its id is the index returned. */
    method AddNode(n: MoNode) returns (id: nat)
      requires Valid() && PortsIn(n.inputs, |nodes|)
      modifies this
      ensures Valid() && nodes == old(nodes) + [n] && id == |old(nodes)|
    {
      nodes := nodes + [n];
      id := |nodes| - 1;
    }

    /** Out-port set_source: every destination of from is moved to to. */
    method SetSource(from: Src, to: Src)
      requires Valid() && to.node < |nodes|
      requires forall p :: p in nodes[to.node].inputs ==> nodes[to.node].inputs[p] != Some(from)
      modifies this
      ensures Valid() && nodes == SetSourceOf(old(nodes), from, to)
    {
      nodes := SetSourceOf(nodes, from, to);
    }

    /** Connects src to in-port p of node n (None disconnects it). */
    method SetInput(n: nat, p: nat, src: Option<Src>)
      requires Valid() && n < |nodes| && (src.Some? ==> src.value.node < |nodes| && src.value.node != n)
      modifies this
      ensures Valid() && nodes == old(nodes)[n := SetPort(old(nodes)[n], p, src)]
    {
      nodes := nodes[n := SetPort(nodes[n], p, src)];
    }

    method SetAttribute(n: nat, k: string, a: Attr)
      requires Valid() && n < |nodes|
      modifies this
      ensures Valid() && nodes == old(nodes)[n := SetAttr(old(nodes)[n], k, a)]
    {
      nodes := nodes[n := SetAttr(nodes[n], k, a)];
    }

    /** `del node[k]`. */
    method DeleteAttribute(n: nat, k: string)
      requires Valid() && n < |nodes|
      modifies this
      ensures Valid() && nodes == old(nodes)[n := old(nodes)[n].(attrs := old(nodes)[n].attrs - {k})]
    {
      nodes := nodes[n := nodes[n].(attrs := nodes[n].attrs - {k})];
    }

    /** Splices op (reading the former source and a Const holding value) into n.p. */
    method InsertOnInput(n: nat, p: nat, op: string, attrs: map<string, Attr>, value: Attr)
      requires Valid() && n < |nodes| && Connected(nodes, n, p)
      modifies this
      ensures Valid() && nodes == InsertedOnInput(old(nodes), n, p, op, attrs, value)
    {
      var r := InsertedOnInput(nodes, n, p, op, attrs, value);
      assert forall q :: q in r[n].inputs && r[n].inputs[q].Some? ==> r[n].inputs[q].value.node != n;
      nodes := r;
    }

    /** MatMul.update_node_stat: the node becomes a MatMul with the given transpose flags. */
    method MakeMatMul(n: nat, extra: map<string, Attr>)
      requires Valid() && n < |nodes|
      modifies this
      ensures Valid() && nodes == old(nodes)[n := AsMatMul(old(nodes)[n], extra)]
    {
      nodes := nodes[n := AsMatMul(nodes[n], extra)];
    }
  }

  /** update_node_stat of MatMul: the op and type become MatMul and the given attributes are set. */
  function AsMatMul(n: MoNode, extra: map<string, Attr>): (r: MoNode)
    ensures r.op == "MatMul" && r.inputs == n.inputs && r.id == n.id
    ensures "type" in r.attrs && r.attrs["type"] == StrAttr("MatMul")
    ensures forall k :: k in extra && k != "type" ==> k in r.attrs && r.attrs[k] == extra[k]
    ensures forall k :: k in n.attrs && k !in extra && k != "type" ==> k in r.attrs && r.attrs[k] == n.attrs[k]
  {
    n.(op := "MatMul", attrs := (n.attrs + extra)["type" := StrAttr("MatMul")])
  }

  // ---------------------------------------------------------------------------
  // Compound port operations

  /** in_port(p).get_connection().set_destination(m.in_port(q)): the edge into n.p now ends at m.q. */
  method SetDestination(g: MoGraph, n: nat, p: nat, m: nat, q: nat)
    requires g.Valid() && n < |g.nodes| && m < |g.nodes| && n != m && Connected(g.nodes, n, p)
    requires g.nodes[n].inputs[p].value.node != m
    modifies g
    ensures g.Valid()
    ensures g.nodes == old(g.nodes)[m := SetPort(old(g.nodes)[m], q, old(g.nodes)[n].inputs[p])][n := SetPort(old(g.nodes)[n], p, None)]
  {
    var src := g.nodes[n].inputs[p];
    g.SetInput(m, q, src);
    g.SetInput(n, p, None);
  }

  /** The graph after insert_op_on_input_port(p, op, value) on node n. */
  function InsertedOnInput(nodes: seq<MoNode>, n: nat, p: nat, op: string, attrs: map<string, Attr>, value: Attr): (r: seq<MoNode>)
    requires n < |nodes| && Connected(nodes, n, p)
    ensures |r| == |nodes| + 2
    ensures r[n].inputs == nodes[n].inputs[p := Some(Src(|nodes|, 0))] && r[n].op == nodes[n].op && r[n].attrs == nodes[n].attrs
    ensures r[|nodes|] == MoNode(op, "", attrs, map[0 := nodes[n].inputs[p], 1 := Some(Src(|nodes| + 1, 0))])
    ensures r[|nodes| + 1] == ConstNode(value)
    ensures forall i :: 0 <= i < |nodes| && i != n ==> r[i] == nodes[i]
  {
    nodes[n := SetPort(nodes[n], p, Some(Src(|nodes|, 0)))] +
      [MoNode(op, "", attrs, map[0 := nodes[n].inputs[p], 1 := Some(Src(|nodes| + 1, 0))]), ConstNode(value)]
  }

  /**
   * insert_op_on_input_port: a new op reads the former source of n.p on its port 0 and a
   * Const holding value on its port 1, and n.p reads the new op. A disconnected or missing
   * port is an error.
   */
  method InsertOpOnInputPort(g: MoGraph, n: nat, p: nat, op: string, attrs: map<string, Attr>, value: Attr)
    returns (r: Result<nat>)
    requires g.Valid() && n < |g.nodes|
    modifies g
    ensures g.Valid()
    ensures r.Failure? <==> !Connected(old(g.nodes), n, p)
    ensures r.Failure? ==> g.nodes == old(g.nodes)
    ensures r.Success? ==> r.value == |old(g.nodes)| && g.nodes == InsertedOnInput(old(g.nodes), n, p, op, attrs, value)
  {
    if !Connected(g.nodes, n, p) {
      return Failure(InPortUnconnectedError);
    }
    g.InsertOnInput(n, p, op, attrs, value);
    r := Success(|g.nodes| - 2);
  }

  /**
   * The bias split: an Add b over `out` and the former source of n's port 2, named `name`,
   * takes over every reader of `out`; n is renamed name/WithoutBiases and its port 2 is
   * disconnected.
   */
  ghost predicate BiasAttached(O: seq<MoNode>, N: seq<MoNode>, n: nat, out: Src, name: string, biasAttrs: map<string, Attr>)
    requires n < |O| && Connected(O, n, 2)
  {
    var b := |O|;
    && |N| == |O| + 1
    && N[b] == MoNode("Add", "", biasAttrs["name" := StrAttr(name)], map[0 := None, 1 := None][1 := O[n].inputs[2]][0 := Some(out)])
    && N[n] == O[n].(attrs := O[n].attrs["name" := StrAttr(name + "/WithoutBiases")],
                     inputs := Retarget(O[n].inputs, out, Src(b, 0))[2 := None])
    && forall i :: 0 <= i < |O| && i != n ==> N[i] == O[i].(inputs := Retarget(O[i].inputs, out, Src(b, 0)))
  }

  /** Creates the bias Add and rewires it after `out` (lines shared by both decomposers). */
  method AttachBias(g: MoGraph, n: nat, out: Src, name: string, biasAttrs: map<string, Attr>) returns (b: nat)
    requires g.Valid() && n < |g.nodes| && out.node < |g.nodes| && Connected(g.nodes, n, 2)
    requires g.nodes[n].inputs[2] != Some(out)
    modifies g
    ensures g.Valid() && b == |old(g.nodes)|
    ensures BiasAttached(old(g.nodes), g.nodes, n, out, name, biasAttrs)
  {
    ghost var O := g.nodes;
    b := g.AddNode(NewOp("Add", biasAttrs));
    g.SetAttribute(n, "name", StrAttr(name + "/WithoutBiases"));
    g.SetAttribute(b, "name", StrAttr(name));
    ghost var M := g.nodes;
    g.SetSource(out, Src(b, 0));
    ghost var S := g.nodes;
    assert g.nodes[n].inputs[2] == O[n].inputs[2] by {
      SetSourceMovesReaders(M, out, Src(b, 0), n, 2);
    }
    SetDestination(g, n, 2, b, 1);
    ghost var D := g.nodes;
    g.SetInput(b, 0, Some(out));
    AttachBiasCompose(O, M, S, D, g.nodes, n, out, name, biasAttrs);
  }

  /** The steps of AttachBias, one state at a time, give BiasAttached. */
  lemma {:induction false} AttachBiasCompose(O: seq<MoNode>, M: seq<MoNode>, S: seq<MoNode>, D: seq<MoNode>, N: seq<MoNode>,
                                             n: nat, out: Src, name: string, biasAttrs: map<string, Attr>)
    requires n < |O| && Connected(O, n, 2) && O[n].inputs[2] != Some(out)
    requires M == (O + [NewOp("Add", biasAttrs)])[n := SetAttr(O[n], "name", StrAttr(name + "/WithoutBiases"))]
                  [|O| := SetAttr(NewOp("Add", biasAttrs), "name", StrAttr(name))]
    requires S == SetSourceOf(M, out, Src(|O|, 0))
    requires D == S[|O| := SetPort(S[|O|], 1, S[n].inputs[2])][n := SetPort(S[n], 2, None)]
    requires N == D[|O| := SetPort(D[|O|], 0, Some(out))]
    ensures BiasAttached(O, N, n, out, name, biasAttrs)
  {
    var b := |O|;
    assert S[n].inputs[2] == O[n].inputs[2];
    assert S[b] == M[b] by {
      assert Retarget(M[b].inputs, out, Src(b, 0)) == M[b].inputs;
    }
    assert N[b] == SetPort(SetPort(M[b], 1, O[n].inputs[2]), 0, Some(out));
    assert N[n] == SetPort(S[n], 2, None);
    forall i | 0 <= i < |O| && i != n
      ensures N[i] == O[i].(inputs := Retarget(O[i].inputs, out, Src(b, 0)))
    {
      assert N[i] == S[i] && M[i] == O[i];
    }
  }

  /** Readers of the split node's output now read the bias Add, which is the only reader of the node. */
  lemma {:induction false} BiasTakesOverReaders(O: seq<MoNode>, N: seq<MoNode>, n: nat, name: string,
                                                biasAttrs: map<string, Attr>, i: nat, p: nat)
    requires Closed(O) && n < |O| && Connected(O, n, 2)
    requires BiasAttached(O, N, n, Src(n, 0), name, biasAttrs)
    requires i < |O| && p in O[i].inputs
    ensures p in N[i].inputs && N[i].inputs[p] != Some(Src(n, 0))
    ensures O[i].inputs[p] == Some(Src(n, 0)) ==> N[i].inputs[p] == Some(Src(|O|, 0))
    ensures O[i].inputs[p] != Some(Src(n, 0)) && (i != n || p != 2) ==> N[i].inputs[p] == O[i].inputs[p]
    ensures N[|O|].inputs[0] == Some(Src(n, 0))
  {
    assert p in Retarget(O[i].inputs, Src(n, 0), Src(|O|, 0));
  }

  // ---------------------------------------------------------------------------
  // FullyConnectedDecomposer

  /** The caffe and mxnet front ends flatten a 4D FullyConnected input. */
  predicate FlattensInput(fw: string) {
    fw == "caffe" || fw == "mxnet"
  }

  /** The weights Reshape target: [-1, out-size], or [out-size, -1] for transposed weights. */
  function ReshapeDim(outSize: int, transposed: bool): (r: seq<int>)
    ensures |r| == 2 && (if transposed then r[0] == outSize && r[1] == -1 else r[0] == -1 && r[1] == outSize)
  {
    if transposed then [outSize, -1] else [-1, outSize]
  }

  /** Transposing [out-size, -1] by [1, 0] gives the same [-1, out-size] layout as the plain case. */
  lemma {:induction false} TransposedWeightsAgree(outSize: int)
    ensures var d := ReshapeDim(outSize, true); [d[1], d[0]] == ReshapeDim(outSize, false)
  {
  }

  /** replace_sub_graph fails: no valid out-size, no name for the bias split, or a weights
      (or, when flattening, data) port that is not connected. */
  predicate FcFails(nodes: seq<MoNode>, n: nat, fw: string)
    requires n < |nodes|
  {
    || (Connected(nodes, n, 2) && !HasValid(nodes[n], "name"))
    || !HasValid(nodes[n], "out-size")
    || !Connected(nodes, n, 1)
    || (FlattensInput(fw) && !Connected(nodes, n, 0))
  }

  /** Node x of N is an op (a Reshape or Transpose) of src by the Const at x + 1 holding dims. */
  predicate OpOver(N: seq<MoNode>, x: nat, op: string, src: Option<Src>, dims: seq<int>) {
    x + 1 < |N| && N[x].op == op && N[x].inputs == map[0 := src, 1 := Some(Src(x + 1, 0))] &&
    N[x + 1] == ConstNode(IntsAttr(dims))
  }

  /** N keeps every node of M except n, and appends. */
  predicate AgreeExcept(M: seq<MoNode>, N: seq<MoNode>, n: nat) {
    |M| <= |N| && forall i :: 0 <= i < |M| && i != n ==> N[i] == M[i]
  }

  lemma {:induction false} OpOverStable(M: seq<MoNode>, N: seq<MoNode>, n: nat, x: nat, op: string, src: Option<Src>, dims: seq<int>)
    requires AgreeExcept(M, N, n) && OpOver(M, x, op, src, dims) && n < x
    ensures OpOver(N, x, op, src, dims)
  {
  }

  /** The bias Add of the split: named name, reading n's output and n's former bias source. */
  predicate BiasPart(O: seq<MoNode>, N: seq<MoNode>, n: nat, name: string)
    requires n < |O| && Connected(O, n, 2)
  {
    && |O| < |N| && n < |N|
    && N[|O|].op == "Add" && "name" in N[|O|].attrs && N[|O|].attrs["name"] == StrAttr(name)
    && N[|O|].inputs == map[0 := Some(Src(n, 0)), 1 := O[n].inputs[2]]
    && "name" in N[n].attrs && N[n].attrs["name"] == StrAttr(name + "/WithoutBiases")
    && 2 in N[n].inputs && N[n].inputs[2].None?
  }

  /** Every old node but n is kept, reading the bias Add where it read n when there is one. */
  predicate FramePart(O: seq<MoNode>, N: seq<MoNode>, n: nat, bias: bool) {
    |O| <= |N| &&
    forall i :: 0 <= i < |O| && i != n ==>
      N[i] == O[i].(inputs := if bias then Retarget(O[i].inputs, Src(n, 0), Src(|O|, 0)) else O[i].inputs)
  }

  /**
   * The graph after FullyConnectedDecomposer on node n: the bias Add (when port 2 was
   * connected), the weights Reshape and Transpose on port 1, the flatten Reshape on port 0,
   * and n itself a MatMul; every other old node keeps everything but reads the bias Add
   * where it read n.
   */
  ghost predicate FcDecomposed(O: seq<MoNode>, N: seq<MoNode>, n: nat, fw: string)
    requires Closed(O) && n < |O| && AttrsTyped(O[n]) && !FcFails(O, n, fw)
  {
    var bias := Connected(O, n, 2);
    var outSize := O[n].attrs["out-size"].i;
    var tw := HasAndSet(O[n], "transpose_weights");
    var r := if bias then |O| + 1 else |O|;
    var w := if tw then r + 2 else r;
    var f := w + 2;
    && |N| == (if FlattensInput(fw) then f + 2 else f)
    && N[n].op == "MatMul" && "type" in N[n].attrs && N[n].attrs["type"] == StrAttr("MatMul")
    && (bias ==> BiasPart(O, N, n, SoftName(O[n])))
    && OpOver(N, r, "Reshape", O[n].inputs[1], ReshapeDim(outSize, tw))
    && (tw ==> OpOver(N, r + 2, "Transpose", Some(Src(r, 0)), [1, 0]))
    && 1 in N[n].inputs && N[n].inputs[1] == Some(Src(w, 0))
    && (FlattensInput(fw) ==> OpOver(N, f, "Reshape", O[n].inputs[0], [0, -1]) && 0 in N[n].inputs && N[n].inputs[0] == Some(Src(f, 0)))
    && (!FlattensInput(fw) && 0 in O[n].inputs ==> 0 in N[n].inputs && N[n].inputs[0] == O[n].inputs[0])
    && FramePart(O, N, n, bias)
  }

  /** Stage 1 (lines 38-45): the bias split, when port 2 is connected. */
  method FcBias(g: MoGraph, n: nat, name: string) returns (r: Result<bool>)
    requires g.Valid() && n < |g.nodes| && NameTyped(g.nodes[n]) && name == SoftName(g.nodes[n])
    modifies g
    ensures g.Valid()
    ensures r.Failure? <==> Connected(old(g.nodes), n, 2) && !HasValid(old(g.nodes)[n], "name")
    ensures r.Success? ==> r.value == Connected(old(g.nodes), n, 2)
    ensures r.Success? && !r.value ==> g.nodes == old(g.nodes)
    ensures r.Success? && r.value ==>
      && BiasPart(old(g.nodes), g.nodes, n, name) && FramePart(old(g.nodes), g.nodes, n, true)
      && |g.nodes| == |old(g.nodes)| + 1 && g.nodes[n].op == old(g.nodes)[n].op
      && forall p :: p != 2 ==> (p in g.nodes[n].inputs <==> p in old(g.nodes)[n].inputs) &&
                                (p in g.nodes[n].inputs ==> g.nodes[n].inputs[p] == old(g.nodes)[n].inputs[p])
  {
    if 2 in g.nodes[n].inputs && g.nodes[n].inputs[2].Some? {
      if !HasValid(g.nodes[n], "name") {
        return Failure(NoNameError);
      }
      ghost var O := g.nodes;
      var b := AttachBias(g, n, Src(n, 0), name, map["name" := StrAttr(name + "/Bias_")]);
      forall p | p != 2 && p in O[n].inputs
        ensures g.nodes[n].inputs[p] == O[n].inputs[p]
      {
        assert O[n].inputs[p] != Some(Src(n, 0));
      }
      return Success(true);
    }
    return Success(false);
  }

  /** Stage 2 (lines 48-57): the weights Reshape on port 1, then the Transpose when transpose_weights is set. */
  method FcWeights(g: MoGraph, n: nat, name: string, outSize: int, tw: bool) returns (r: Result<nat>)
    requires g.Valid() && n < |g.nodes|
    modifies g
    ensures g.Valid()
    ensures r.Failure? <==> !Connected(old(g.nodes), n, 1)
    ensures r.Failure? ==> g.nodes == old(g.nodes)
    ensures r.Success? ==>
      var O := old(g.nodes);
      var w := if tw then |O| + 2 else |O|;
      && |g.nodes| == w + 2 && AgreeExcept(O, g.nodes, n)
      && g.nodes[n] == O[n].(inputs := O[n].inputs[1 := Some(Src(w, 0))])
      && OpOver(g.nodes, |O|, "Reshape", O[n].inputs[1], ReshapeDim(outSize, tw))
      && (tw ==> OpOver(g.nodes, |O| + 2, "Transpose", Some(Src(|O|, 0)), [1, 0]))
  {
    ghost var O := g.nodes;
    r := InsertOpOnInputPort(g, n, 1, "Reshape", map["name" := StrAttr(name + "/weights_reshape")], IntsAttr(ReshapeDim(outSize, tw)));
    if r.Success? && tw {
      ghost var M := g.nodes;
      var t := InsertOpOnInputPort(g, n, 1, "Transpose", map["name" := StrAttr(name + "/weights_transpose")], IntsAttr([1, 0]));
      assert M[n].inputs[1] == Some(Src(|O|, 0));
      OpOverStable(M, g.nodes, n, |O|, "Reshape", O[n].inputs[1], ReshapeDim(outSize, tw));
      assert g.nodes[n].inputs == O[n].inputs[1 := Some(Src(|O| + 2, 0))];
    }
  }

  /** Stage 3 (lines 60-62): the flatten Reshape on port 0 for caffe and mxnet. */
  method FcFlatten(g: MoGraph, n: nat, name: string) returns (r: Result<()>)
    requires g.Valid() && n < |g.nodes|
    modifies g
    ensures g.Valid()
    ensures r.Failure? <==> FlattensInput(g.fw) && !Connected(old(g.nodes), n, 0)
    ensures !FlattensInput(g.fw) ==> g.nodes == old(g.nodes)
    ensures r.Success? && FlattensInput(g.fw) ==>
      var O := old(g.nodes);
      && |g.nodes| == |O| + 2 && AgreeExcept(O, g.nodes, n)
      && g.nodes[n] == O[n].(inputs := O[n].inputs[0 := Some(Src(|O|, 0))])
      && OpOver(g.nodes, |O|, "Reshape", O[n].inputs[0], [0, -1])
  {
    r := Success(());
    if FlattensInput(g.fw) {
      var flatten := InsertOpOnInputPort(g, n, 0, "Reshape", map["name" := StrAttr(name + "/flatten_fc_input")], IntsAttr([0, -1]));
      if flatten.Failure? {
        r := Failure(flatten.error);
      }
    }
  }

  /**
   * FullyConnectedDecomposer.replace_sub_graph on node n: fails exactly when FcFails says
   * (after the stages before the failing one have run), and otherwise leaves FcDecomposed.
   */
  method FullyConnectedDecompose(g: MoGraph, n: nat) returns (r: Result<()>)
    requires g.Valid() && n < |g.nodes| && AttrsTyped(g.nodes[n])
    modifies g
    ensures g.Valid()
    ensures r.Failure? <==> FcFails(old(g.nodes), n, g.fw)
    ensures r.Success? ==> FcDecomposed(old(g.nodes), g.nodes, n, g.fw)
  {
    ghost var O := g.nodes;
    var node := g.nodes[n];
    var name := SoftName(node);
    var bias := FcBias(g, n, name);
    if bias.Failure? {
      return Failure(bias.error);
    }
    ghost var M1 := g.nodes;
    assert BiasStage(O, M1, n);
    BiasStagePorts(O, M1, n);
    if !HasValid(node, "out-size") {
      return Failure(NoOutSizeError);
    }
    var outSize := node.attrs["out-size"].i;
    var tw := HasAndSet(node, "transpose_weights");
    var weights := FcWeights(g, n, name, outSize, tw);
    if weights.Failure? {
      return Failure(weights.error);
    }
    ghost var M2 := g.nodes;
    assert WeightsStage(M1, M2, n, O[n].inputs[1], ReshapeDim(outSize, tw), tw);
    WeightsStagePorts(M1, M2, n, O[n].inputs[1], ReshapeDim(outSize, tw), tw);
    var flatten := FcFlatten(g, n, name);
    if flatten.Failure? {
      return Failure(flatten.error);
    }
    ghost var M3 := g.nodes;
    assert FlattenStage(M2, M3, n, PortSource(O[n], 0), g.fw);
    g.MakeMatMul(n, map[]);
    FcCompose(O, M1, M2, M3, g.nodes, n, g.fw);
    r := Success(());
  }

  /** What the bias stage leaves (M1 from O). */
  ghost predicate BiasStage(O: seq<MoNode>, M1: seq<MoNode>, n: nat)
    requires n < |O| && NameTyped(O[n])
  {
    if Connected(O, n, 2) then
      && BiasPart(O, M1, n, SoftName(O[n])) && FramePart(O, M1, n, true)
      && |M1| == |O| + 1 && M1[n].op == O[n].op
      && forall p :: p != 2 ==> (p in M1[n].inputs <==> p in O[n].inputs) &&
                                (p in M1[n].inputs ==> M1[n].inputs[p] == O[n].inputs[p])
    else M1 == O
  }

  /** The bias stage leaves n's data and weights ports as they were. */
  lemma {:induction false} BiasStagePorts(O: seq<MoNode>, M1: seq<MoNode>, n: nat)
    requires n < |O| && NameTyped(O[n]) && BiasStage(O, M1, n)
    ensures n < |M1|
    ensures Connected(M1, n, 0) == Connected(O, n, 0) && Connected(M1, n, 1) == Connected(O, n, 1)
    ensures PortSource(M1[n], 0) == PortSource(O[n], 0) && PortSource(M1[n], 1) == PortSource(O[n], 1)
  {
  }

  /** What the weights stage leaves (M2 from M1), the Reshape reading src. */
  predicate WeightsStage(M1: seq<MoNode>, M2: seq<MoNode>, n: nat, src: Option<Src>, dims: seq<int>, tw: bool)
    requires n < |M1|
  {
    var w := if tw then |M1| + 2 else |M1|;
    && |M2| == w + 2 && AgreeExcept(M1, M2, n)
    && M2[n] == M1[n].(inputs := M1[n].inputs[1 := Some(Src(w, 0))])
    && OpOver(M2, |M1|, "Reshape", src, dims)
    && (tw ==> OpOver(M2, |M1| + 2, "Transpose", Some(Src(|M1|, 0)), [1, 0]))
  }

  /** The weights stage leaves n's data port as it was. */
  lemma {:induction false} WeightsStagePorts(M1: seq<MoNode>, M2: seq<MoNode>, n: nat, src: Option<Src>, dims: seq<int>, tw: bool)
    requires n < |M1| && WeightsStage(M1, M2, n, src, dims, tw)
    ensures n < |M2| && Connected(M2, n, 0) == Connected(M1, n, 0) && PortSource(M2[n], 0) == PortSource(M1[n], 0)
  {
  }

  /** What the flatten stage leaves (M3 from M2), the Reshape reading src. */
  predicate FlattenStage(M2: seq<MoNode>, M3: seq<MoNode>, n: nat, src: Option<Src>, fw: string)
    requires n < |M2|
  {
    if FlattensInput(fw) then
      && |M3| == |M2| + 2 && AgreeExcept(M2, M3, n)
      && M3[n] == M2[n].(inputs := M2[n].inputs[0 := Some(Src(|M2|, 0))])
      && OpOver(M3, |M2|, "Reshape", src, [0, -1])
    else M3 == M2
  }

  /** The nodes appended by the stages are still there once n becomes a MatMul. */
  lemma {:induction false} FcAppended(O: seq<MoNode>, M1: seq<MoNode>, M2: seq<MoNode>, M3: seq<MoNode>, N: seq<MoNode>,
                                      n: nat, fw: string, dims: seq<int>, tw: bool)
    requires Closed(O) && n < |O| && AttrsTyped(O[n]) && !FcFails(O, n, fw)
    requires BiasStage(O, M1, n) && n < |M1|
    requires WeightsStage(M1, M2, n, O[n].inputs[1], dims, tw)
    requires FlattenStage(M2, M3, n, PortSource(O[n], 0), fw)
    requires N == M3[n := AsMatMul(M3[n], map[])]
    ensures OpOver(N, |M1|, "Reshape", O[n].inputs[1], dims)
    ensures tw ==> OpOver(N, |M1| + 2, "Transpose", Some(Src(|M1|, 0)), [1, 0])
    ensures FlattensInput(fw) ==> OpOver(N, |M2|, "Reshape", O[n].inputs[0], [0, -1])
    ensures Connected(O, n, 2) ==> N[|O|] == M1[|O|]
    ensures |N| == |M3| && (FlattensInput(fw) ==> |M3| == |M2| + 2) && (!FlattensInput(fw) ==> |M3| == |M2|)
    ensures FramePart(O, N, n, Connected(O, n, 2))
  {
    assert AgreeExcept(M2, M3, n);
    assert AgreeExcept(M3, N, n);
    assert AgreeExcept(M2, N, n);
    OpOverStable(M2, N, n, |M1|, "Reshape", O[n].inputs[1], dims);
    if tw {
      OpOverStable(M2, N, n, |M1| + 2, "Transpose", Some(Src(|M1|, 0)), [1, 0]);
    }
    if FlattensInput(fw) {
      OpOverStable(M3, N, n, |M2|, "Reshape", O[n].inputs[0], [0, -1]);
    }
    assert AgreeExcept(M1, N, n);
  }

  /** Node n after all stages: a MatMul with the new weights and data sources. */
  lemma {:induction false} FcNode(O: seq<MoNode>, M1: seq<MoNode>, M2: seq<MoNode>, M3: seq<MoNode>, N: seq<MoNode>,
                                  n: nat, fw: string, dims: seq<int>, tw: bool)
    requires Closed(O) && n < |O| && AttrsTyped(O[n]) && !FcFails(O, n, fw)
    requires BiasStage(O, M1, n) && n < |M1|
    requires WeightsStage(M1, M2, n, O[n].inputs[1], dims, tw)
    requires FlattenStage(M2, M3, n, PortSource(O[n], 0), fw)
    requires N == M3[n := AsMatMul(M3[n], map[])]
    ensures N[n].op == "MatMul" && "type" in N[n].attrs && N[n].attrs["type"] == StrAttr("MatMul")
    ensures 1 in N[n].inputs && N[n].inputs[1] == Some(Src(if tw then |M1| + 2 else |M1|, 0))
    ensures FlattensInput(fw) ==> 0 in N[n].inputs && N[n].inputs[0] == Some(Src(|M2|, 0))
    ensures !FlattensInput(fw) && 0 in O[n].inputs ==> 0 in N[n].inputs && N[n].inputs[0] == O[n].inputs[0]
    ensures Connected(O, n, 2) ==> "name" in N[n].attrs && N[n].attrs["name"] == StrAttr(SoftName(O[n]) + "/WithoutBiases") &&
                                   2 in N[n].inputs && N[n].inputs[2].None?
  {
    assert N[n].inputs == M3[n].inputs;
    if Connected(O, n, 2) {
      assert "name" in M1[n].attrs && M1[n].attrs["name"] == StrAttr(SoftName(O[n]) + "/WithoutBiases");
      assert M3[n].attrs == M1[n].attrs;
      assert 2 in M1[n].inputs && M1[n].inputs[2].None?;
    }
  }

  /** The stage results of replace_sub_graph together give FcDecomposed. */
  lemma {:induction false} FcCompose(O: seq<MoNode>, M1: seq<MoNode>, M2: seq<MoNode>, M3: seq<MoNode>, N: seq<MoNode>,
                                     n: nat, fw: string)
    requires Closed(O) && n < |O| && AttrsTyped(O[n]) && !FcFails(O, n, fw)
    requires BiasStage(O, M1, n) && n < |M1|
    requires WeightsStage(M1, M2, n, O[n].inputs[1], ReshapeDim(O[n].attrs["out-size"].i, HasAndSet(O[n], "transpose_weights")),
                          HasAndSet(O[n], "transpose_weights"))
    requires FlattenStage(M2, M3, n, PortSource(O[n], 0), fw)
    requires N == M3[n := AsMatMul(M3[n], map[])]
    ensures FcDecomposed(O, N, n, fw)
  {
    var tw := HasAndSet(O[n], "transpose_weights");
    var dims := ReshapeDim(O[n].attrs["out-size"].i, tw);
    FcAppended(O, M1, M2, M3, N, n, fw, dims, tw);
    FcNode(O, M1, M2, M3, N, n, fw, dims, tw);
  }

  /** After the bias split every old reader of the FullyConnected output reads the bias Add. */
  lemma {:induction false} FcReadersReadBias(O: seq<MoNode>, N: seq<MoNode>, n: nat, fw: string, i: nat, p: nat)
    requires Closed(O) && n < |O| && AttrsTyped(O[n]) && !FcFails(O, n, fw) && FcDecomposed(O, N, n, fw)
    requires Connected(O, n, 2) && i < |O| && i != n && p in O[i].inputs && O[i].inputs[p] == Some(Src(n, 0))
    ensures p in N[i].inputs && N[i].inputs[p] == Some(Src(|O|, 0))
  {
  }

  // ---------------------------------------------------------------------------
  // GemmDecomposer

  /** create_op_with_const_inputs(op, {1: value}): a new op whose port 1 reads a new Const. */
  method CreateOpWithConstInput(g: MoGraph, op: string, attrs: map<string, Attr>, value: Attr) returns (m: nat)
    requires g.Valid()
    modifies g
    ensures g.Valid() && m == |old(g.nodes)|
    ensures g.nodes == old(g.nodes) + [MoNode(op, "", attrs, map[0 := None, 1 := Some(Src(m + 1, 0))]), ConstNode(value)]
  {
    m := g.AddNode(NewOp(op, attrs));
    var c := g.AddNode(ConstNode(value));
    g.SetInput(m, 1, Some(Src(c, 0)));
    assert g.nodes[m].inputs == map[0 := None, 1 := Some(Src(c, 0))];
  }

  /** Connection insert_node(m): m reads src on port 0 and every former reader of src reads m. */
  method InsertNode(g: MoGraph, src: Src, m: nat)
    requires g.Valid() && src.node < |g.nodes| && m < |g.nodes| && m != src.node
    requires forall p :: p in g.nodes[m].inputs ==> g.nodes[m].inputs[p] != Some(src)
    modifies g
    ensures g.Valid()
    ensures var S := SetSourceOf(old(g.nodes), src, Src(m, 0)); g.nodes == S[m := SetPort(S[m], 0, Some(src))]
  {
    g.SetSource(src, Src(m, 0));
    g.SetInput(m, 0, Some(src));
  }

  /** Moving readers from a to b and then from b to c moves them from a to c when nobody read b. */
  lemma {:induction false} RetargetCompose(inputs: Ports, a: Src, b: Src, c: Src)
    requires forall p :: p in inputs ==> inputs[p] != Some(b)
    ensures Retarget(Retarget(inputs, a, b), b, c) == Retarget(inputs, a, c)
  {
  }

  /** Nodes of a closed graph never read a node appended after them. */
  lemma {:induction false} ClosedUnread(O: seq<MoNode>, i: nat, x: nat, port: nat)
    requires Closed(O) && i < |O| && |O| <= x
    ensures forall p :: p in O[i].inputs ==> O[i].inputs[p] != Some(Src(x, port))
  {
  }

  /** What the alpha step leaves: the Mul reading n's output, and n's readers moved to it. */
  ghost predicate AlphaStage(O: seq<MoNode>, M: seq<MoNode>, n: nat, name: string)
    requires n < |O| && AttrsTyped(O[n])
  {
    if Scales(O[n], "alpha") then
      && |M| == |O| + 2
      && M[|O|] == MoNode("Mul", "", AlphaAttrs(name), map[0 := Some(Src(n, 0)), 1 := Some(Src(|O| + 1, 0))])
      && M[|O| + 1] == ConstNode(O[n].attrs["alpha"])
      && M[n] == O[n].(attrs := O[n].attrs - {"alpha"})
      && forall i :: 0 <= i < |O| && i != n ==> M[i] == O[i].(inputs := Retarget(O[i].inputs, Src(n, 0), Src(|O|, 0)))
    else M == O
  }

  /**
   * An alpha or beta of exactly 1 is not applied: the alpha stage leaves the graph as it
   * was, and no beta Mul is inserted.
   */
  lemma {:induction false} UnitScaleAddsNoMul(O: seq<MoNode>, M: seq<MoNode>, n: nat, name: string, k: string)
    requires n < |O| && AttrsTyped(O[n]) && k in {"alpha", "beta"}
    requires k in O[n].attrs && (O[n].attrs[k] == IntAttr(1) || O[n].attrs[k] == RealAttr(1.0))
    ensures !Scales(O[n], k)
    ensures k == "alpha" && AlphaStage(O, M, n, name) ==> M == O
    ensures k == "beta" ==> !AppliesBeta(O, n)
  {
    assert Number(O[n].attrs[k]) == 1.0;
    assert IsClose(1.0, 1.0);
  }

  /** Lines 80-85: the alpha Mul after n's output, when alpha is valid and not close to 1. */
  method GemmAlpha(g: MoGraph, n: nat, name: string) returns (out: Src)
    requires g.Valid() && n < |g.nodes| && AttrsTyped(g.nodes[n])
    modifies g
    ensures g.Valid()
    ensures AlphaStage(old(g.nodes), g.nodes, n, name)
    ensures out == if Scales(old(g.nodes)[n], "alpha") then Src(|old(g.nodes)|, 0) else Src(n, 0)
  {
    out := Src(n, 0);
    if HasValid(g.nodes[n], "alpha") && !IsClose(Number(g.nodes[n].attrs["alpha"]), 1.0) {
      ghost var O := g.nodes;
      var m := CreateOpWithConstInput(g, "Mul", AlphaAttrs(name), g.nodes[n].attrs["alpha"]);
      ghost var M := g.nodes;
      assert M[m].inputs[1] == Some(Src(m + 1, 0));
      InsertNode(g, out, m);
      ghost var I := g.nodes;
      g.DeleteAttribute(n, "alpha");
      AlphaCompose(O, M, I, g.nodes, n, name);
      out := Src(m, 0);
    }
  }

  /** The steps of GemmAlpha, one state at a time, give AlphaStage. */
  lemma {:induction false} AlphaCompose(O: seq<MoNode>, M: seq<MoNode>, I: seq<MoNode>, N: seq<MoNode>, n: nat, name: string)
    requires Closed(O) && n < |O| && AttrsTyped(O[n]) && Scales(O[n], "alpha")
    requires M == O + [MoNode("Mul", "", AlphaAttrs(name), map[0 := None, 1 := Some(Src(|O| + 1, 0))]), ConstNode(O[n].attrs["alpha"])]
    requires var S := SetSourceOf(M, Src(n, 0), Src(|O|, 0)); I == S[|O| := SetPort(S[|O|], 0, Some(Src(n, 0)))]
    requires N == I[n := I[n].(attrs := I[n].attrs - {"alpha"})]
    ensures AlphaStage(O, N, n, name)
  {
    var m := |O|;
    ClosedUnread(O, n, m, 0);
    RetargetUnread(O[n].inputs, Src(n, 0), Src(m, 0));
    assert N[n] == O[n].(attrs := O[n].attrs - {"alpha"});
    assert Retarget(M[m].inputs, Src(n, 0), Src(m, 0)) == M[m].inputs;
    assert N[m].inputs == map[0 := Some(Src(n, 0)), 1 := Some(Src(m + 1, 0))];
    assert N[m + 1] == M[m + 1];
    forall i | 0 <= i < |O| && i != n
      ensures N[i] == O[i].(inputs := Retarget(O[i].inputs, Src(n, 0), Src(m, 0)))
    {
      assert N[i] == I[i] && M[i] == O[i];
    }
  }

  function BiasAttrs(name: string): map<string, Attr> {
    map["name" := StrAttr(name + "/Bias_"), "can_be_scaleshift" := BoolAttr(false)]
  }

  function BetaAttrs(name: string): map<string, Attr> {
    map["name" := StrAttr(name + "/Beta"), "can_be_scaleshift" := BoolAttr(false)]
  }

  /** What the bias step leaves (P from M): the Add after `out`, and the beta Mul on its port 1. */
  ghost predicate BiasBetaStage(M: seq<MoNode>, P: seq<MoNode>, n: nat, out: Src, name: string, beta: bool, betaValue: Attr)
    requires n < |M|
  {
    if Connected(M, n, 2) then
      var b := |M|;
      && |P| == (if beta then b + 3 else b + 1)
      && P[b].op == "Add" && "name" in P[b].attrs && P[b].attrs["name"] == StrAttr(name)
      && P[b].inputs == map[0 := Some(out), 1 := if beta then Some(Src(b + 1, 0)) else M[n].inputs[2]]
      && (beta ==> P[b + 1] == MoNode("Mul", "", BetaAttrs(name), map[0 := M[n].inputs[2], 1 := Some(Src(b + 2, 0))]) &&
                   P[b + 2] == ConstNode(betaValue))
      && P[n] == M[n].(attrs := M[n].attrs["name" := StrAttr(name + "/WithoutBiases")] - (if beta then {"beta"} else {}),
                       inputs := M[n].inputs[2 := None])
      && forall i :: 0 <= i < |M| && i != n ==> P[i] == M[i].(inputs := Retarget(M[i].inputs, out, Src(b, 0)))
    else P == M
  }

  /** The beta Mul spliced into the bias Add's port 1, and beta deleted from n. */
  function WithBeta(A: seq<MoNode>, n: nat, b: nat, name: string, betaValue: Attr): (r: seq<MoNode>)
    requires n < |A| && b < |A| && n != b && Connected(A, b, 1)
  {
    var I := InsertedOnInput(A, b, 1, "Mul", BetaAttrs(name), betaValue);
    I[n := I[n].(attrs := I[n].attrs - {"beta"})]
  }

  lemma {:induction false} BiasBetaCompose(M: seq<MoNode>, A: seq<MoNode>, P: seq<MoNode>, n: nat, out: Src, name: string,
                                           beta: bool, betaValue: Attr)
    requires n < |M| && Connected(M, n, 2)
    requires forall p :: p in M[n].inputs ==> M[n].inputs[p] != Some(out)
    requires BiasAttached(M, A, n, out, name, BiasAttrs(name))
    requires beta ==> Connected(A, |M|, 1) && P == WithBeta(A, n, |M|, name, betaValue)
    requires !beta ==> P == A
    ensures BiasBetaStage(M, P, n, out, name, beta, betaValue)
  {
    RetargetUnread(M[n].inputs, out, Src(|M|, 0));
    if beta {
      BetaCompose(M, A, P, n, out, name, betaValue);
    } else {
      assert P[|M|].inputs == map[0 := Some(out), 1 := M[n].inputs[2]];
    }
  }

  lemma {:induction false} BetaCompose(M: seq<MoNode>, A: seq<MoNode>, P: seq<MoNode>, n: nat, out: Src, name: string,
                                       betaValue: Attr)
    requires n < |M| && Connected(M, n, 2)
    requires Retarget(M[n].inputs, out, Src(|M|, 0)) == M[n].inputs
    requires BiasAttached(M, A, n, out, name, BiasAttrs(name))
    requires Connected(A, |M|, 1) && P == WithBeta(A, n, |M|, name, betaValue)
    ensures BiasBetaStage(M, P, n, out, name, true, betaValue)
  {
    var b := |M|;
    assert A[n].inputs == M[n].inputs[2 := None];
    assert P[b].inputs == map[0 := Some(out), 1 := Some(Src(b + 1, 0))];
    forall i | 0 <= i < |M| && i != n
      ensures P[i] == M[i].(inputs := Retarget(M[i].inputs, out, Src(b, 0)))
    {
      assert P[i] == A[i];
    }
  }

  /** Lines 95-99: the beta Mul on the bias Add's port 1, and beta deleted. */
  method GemmBeta(g: MoGraph, n: nat, b: nat, name: string, betaValue: Attr)
    requires g.Valid() && n < |g.nodes| && b < |g.nodes| && n != b && Connected(g.nodes, b, 1)
    modifies g
    ensures g.Valid() && g.nodes == WithBeta(old(g.nodes), n, b, name, betaValue)
  {
    var r := InsertOpOnInputPort(g, b, 1, "Mul", BetaAttrs(name), betaValue);
    g.DeleteAttribute(n, "beta");
  }

  /** Lines 87-99: the bias Add after `out`, and the beta Mul when beta is applied. */
  method GemmBias(g: MoGraph, n: nat, out: Src, name: string, beta: bool, betaValue: Attr)
    requires g.Valid() && n < |g.nodes| && out.node < |g.nodes|
    requires forall p :: p in g.nodes[n].inputs ==> g.nodes[n].inputs[p] != Some(out)
    modifies g
    ensures g.Valid()
    ensures BiasBetaStage(old(g.nodes), g.nodes, n, out, name, beta, betaValue)
  {
    if !(2 in g.nodes[n].inputs && g.nodes[n].inputs[2].Some?) {
      return;
    }
    ghost var M := g.nodes;
    var b := AttachBias(g, n, out, name, BiasAttrs(name));
    ghost var A := g.nodes;
    if beta {
      assert A[b].inputs[1] == M[n].inputs[2];
      GemmBeta(g, n, b, name, betaValue);
    }
    BiasBetaCompose(M, A, g.nodes, n, out, name, beta, betaValue);
  }

  function AlphaAttrs(name: string): map<string, Attr> {
    map["name" := StrAttr(name + "/Alpha"), "can_be_scaleshift" := BoolAttr(false)]
  }

  /** The MatMul flags of a Gemm: transpose_a and transpose_b as has_and_set reports them. */
  function GemmFlags(n: MoNode): map<string, Attr> {
    map["transpose_a" := BoolAttr(HasAndSet(n, "transpose_a")), "transpose_b" := BoolAttr(HasAndSet(n, "transpose_b"))]
  }

  /** Where the alpha Mul ends up, and where the bias Add does. */
  function AlphaOut(O: seq<MoNode>, n: nat): Src
    requires n < |O| && AttrsTyped(O[n])
  {
    if Scales(O[n], "alpha") then Src(|O|, 0) else Src(n, 0)
  }

  function BiasIndex(O: seq<MoNode>, n: nat): nat
    requires n < |O| && AttrsTyped(O[n])
  {
    if Scales(O[n], "alpha") then |O| + 2 else |O|
  }

  /** The output that n's former readers read after the decomposition. */
  function LastOut(O: seq<MoNode>, n: nat): Src
    requires n < |O| && AttrsTyped(O[n])
  {
    if Connected(O, n, 2) then Src(BiasIndex(O, n), 0) else AlphaOut(O, n)
  }

  predicate AppliesBeta(O: seq<MoNode>, n: nat)
    requires n < |O| && AttrsTyped(O[n])
  {
    Connected(O, n, 2) && Scales(O[n], "beta")
  }

  /** Node n after the decomposition: a MatMul with its flags, without the applied alpha and beta. */
  ghost predicate GemmNodePart(O: seq<MoNode>, N: seq<MoNode>, n: nat)
    requires n < |O| && AttrsTyped(O[n])
  {
    && n < |N| && N[n].op == "MatMul" && "type" in N[n].attrs && N[n].attrs["type"] == StrAttr("MatMul")
    && "transpose_a" in N[n].attrs && N[n].attrs["transpose_a"] == BoolAttr(HasAndSet(O[n], "transpose_a"))
    && "transpose_b" in N[n].attrs && N[n].attrs["transpose_b"] == BoolAttr(HasAndSet(O[n], "transpose_b"))
    && ("alpha" in N[n].attrs <==> "alpha" in O[n].attrs && !Scales(O[n], "alpha"))
    && ("beta" in N[n].attrs <==> "beta" in O[n].attrs && !AppliesBeta(O, n))
    && N[n].inputs == (if Connected(O, n, 2) then O[n].inputs[2 := None] else O[n].inputs)
    && (Connected(O, n, 2) ==> "name" in N[n].attrs && N[n].attrs["name"] == StrAttr(SoftName(O[n]) + "/WithoutBiases"))
  }

  /** The appended nodes: alpha Mul and its Const, bias Add, beta Mul and its Const. */
  ghost predicate GemmAppendedPart(O: seq<MoNode>, N: seq<MoNode>, n: nat)
    requires n < |O| && AttrsTyped(O[n])
  {
    var name := SoftName(O[n]);
    var b := BiasIndex(O, n);
    var beta := AppliesBeta(O, n);
    && |N| == (if Connected(O, n, 2) then (if beta then b + 3 else b + 1) else b)
    && (Scales(O[n], "alpha") ==>
          && N[|O|] == MoNode("Mul", "", AlphaAttrs(name), map[0 := Some(Src(n, 0)), 1 := Some(Src(|O| + 1, 0))])
          && N[|O| + 1] == ConstNode(O[n].attrs["alpha"]))
    && (Connected(O, n, 2) ==>
          && N[b].op == "Add" && "name" in N[b].attrs && N[b].attrs["name"] == StrAttr(name)
          && N[b].inputs == map[0 := Some(AlphaOut(O, n)), 1 := if beta then Some(Src(b + 1, 0)) else O[n].inputs[2]])
    && (beta ==>
          && N[b + 1] == MoNode("Mul", "", BetaAttrs(name), map[0 := O[n].inputs[2], 1 := Some(Src(b + 2, 0))])
          && N[b + 2] == ConstNode(O[n].attrs["beta"]))
  }

  /** Every other old node reads the last new output where it read n. */
  ghost predicate GemmFramePart(O: seq<MoNode>, N: seq<MoNode>, n: nat)
    requires n < |O| && AttrsTyped(O[n])
  {
    |O| <= |N| && forall i :: 0 <= i < |O| && i != n ==> N[i] == O[i].(inputs := Retarget(O[i].inputs, Src(n, 0), LastOut(O, n)))
  }

  /**
   * The graph after GemmDecomposer on node n: the alpha Mul after n (when alpha is applied),
   * the bias Add after that (when port 2 was connected) and the beta Mul on the Add's bias
   * input (when beta is applied too); n itself a MatMul with its transpose flags and without
   * the applied alpha and beta; every other old node reads the last of these where it read n.
   */
  ghost predicate GemmDecomposed(O: seq<MoNode>, N: seq<MoNode>, n: nat)
    requires n < |O| && AttrsTyped(O[n])
  {
    GemmNodePart(O, N, n) && GemmAppendedPart(O, N, n) && GemmFramePart(O, N, n)
  }

  function BetaValue(n: MoNode): Attr {
    if HasValid(n, "beta") then n.attrs["beta"] else NoneAttr
  }

  /** Node n after the alpha and bias steps, before it becomes a MatMul. */
  function GemmStaged(O: seq<MoNode>, n: nat): MoNode
    requires n < |O| && AttrsTyped(O[n])
  {
    var a := if Scales(O[n], "alpha") then O[n].attrs - {"alpha"} else O[n].attrs;
    if Connected(O, n, 2) then
      O[n].(attrs := a["name" := StrAttr(SoftName(O[n]) + "/WithoutBiases")] - (if Scales(O[n], "beta") then {"beta"} else {}),
            inputs := O[n].inputs[2 := None])
    else O[n].(attrs := a)
  }

  lemma {:induction false} GemmStagedIs(O: seq<MoNode>, M: seq<MoNode>, P: seq<MoNode>, n: nat)
    requires n < |O| && AttrsTyped(O[n])
    requires AlphaStage(O, M, n, SoftName(O[n]))
    requires n < |M| && BiasBetaStage(M, P, n, AlphaOut(O, n), SoftName(O[n]), Scales(O[n], "beta"), BetaValue(O[n]))
    ensures n < |P| && P[n] == GemmStaged(O, n)
  {
    assert M[n].inputs == O[n].inputs;
    assert Connected(M, n, 2) == Connected(O, n, 2);
  }

  lemma {:induction false} GemmStagedNode(O: seq<MoNode>, n: nat)
    requires n < |O| && AttrsTyped(O[n])
    ensures GemmNodePart(O, O[n := AsMatMul(GemmStaged(O, n), GemmFlags(GemmStaged(O, n)))], n)
  {
    var s := GemmStaged(O, n);
    assert HasAndSet(s, "transpose_a") == HasAndSet(O[n], "transpose_a");
    assert HasAndSet(s, "transpose_b") == HasAndSet(O[n], "transpose_b");
  }

  lemma {:induction false} GemmNodeCompose(O: seq<MoNode>, M: seq<MoNode>, P: seq<MoNode>, N: seq<MoNode>, n: nat)
    requires n < |O| && AttrsTyped(O[n])
    requires AlphaStage(O, M, n, SoftName(O[n]))
    requires n < |M| && BiasBetaStage(M, P, n, AlphaOut(O, n), SoftName(O[n]), Scales(O[n], "beta"), BetaValue(O[n]))
    requires n < |P| && N == P[n := AsMatMul(P[n], GemmFlags(P[n]))]
    ensures GemmNodePart(O, N, n)
  {
    GemmStagedIs(O, M, P, n);
    GemmStagedNode(O, n);
    var s := GemmStaged(O, n);
    assert N[n] == O[n := AsMatMul(s, GemmFlags(s))][n];
  }

  lemma {:induction false} GemmAppendedCompose(O: seq<MoNode>, M: seq<MoNode>, P: seq<MoNode>, N: seq<MoNode>, n: nat)
    requires Closed(O) && n < |O| && AttrsTyped(O[n])
    requires AlphaStage(O, M, n, SoftName(O[n]))
    requires n < |M| && BiasBetaStage(M, P, n, AlphaOut(O, n), SoftName(O[n]), Scales(O[n], "beta"), BetaValue(O[n]))
    requires n < |P| && N == P[n := AsMatMul(P[n], GemmFlags(P[n]))]
    ensures GemmAppendedPart(O, N, n)
  {
    AlphaStageShape(O, M, n);
    BiasFrame(M, P, n, AlphaOut(O, n), SoftName(O[n]), Scales(O[n], "beta"), BetaValue(O[n]));
    GemmAppendedAlpha(O, M, P, N, n);
    GemmAppendedBias(O, M, P, N, n);
  }

  /** The alpha Mul and its Const survive the bias step unchanged. */
  lemma {:induction false} GemmAppendedAlpha(O: seq<MoNode>, M: seq<MoNode>, P: seq<MoNode>, N: seq<MoNode>, n: nat)
    requires n < |O| && AttrsTyped(O[n])
    requires AlphaStage(O, M, n, SoftName(O[n]))
    requires n < |M| <= |P|
    requires forall i :: 0 <= i < |M| && i != n ==>
               P[i] == if Connected(M, n, 2) then M[i].(inputs := Retarget(M[i].inputs, AlphaOut(O, n), Src(|M|, 0))) else M[i]
    requires N == P[n := AsMatMul(P[n], GemmFlags(P[n]))]
    ensures Scales(O[n], "alpha") ==>
              && |O| + 1 < |N|
              && N[|O|] == MoNode("Mul", "", AlphaAttrs(SoftName(O[n])), map[0 := Some(Src(n, 0)), 1 := Some(Src(|O| + 1, 0))])
              && N[|O| + 1] == ConstNode(O[n].attrs["alpha"])
  {
    if Scales(O[n], "alpha") && Connected(M, n, 2) {
      assert Retarget(M[|O|].inputs, AlphaOut(O, n), Src(|M|, 0)) == M[|O|].inputs;
      assert Retarget(M[|O| + 1].inputs, AlphaOut(O, n), Src(|M|, 0)) == M[|O| + 1].inputs;
    }
  }

  /** The length of the result, the bias Add and the beta Mul with its Const. */
  lemma {:induction false} GemmAppendedBias(O: seq<MoNode>, M: seq<MoNode>, P: seq<MoNode>, N: seq<MoNode>, n: nat)
    requires n < |O| && AttrsTyped(O[n])
    requires |M| == BiasIndex(O, n) && M[n].inputs == O[n].inputs
    requires n < |M| && BiasBetaStage(M, P, n, AlphaOut(O, n), SoftName(O[n]), Scales(O[n], "beta"), BetaValue(O[n]))
    requires n < |P| && N == P[n := AsMatMul(P[n], GemmFlags(P[n]))]
    ensures var b := BiasIndex(O, n);
            && |N| == (if Connected(O, n, 2) then (if AppliesBeta(O, n) then b + 3 else b + 1) else b)
            && (Connected(O, n, 2) ==>
                  && N[b].op == "Add" && "name" in N[b].attrs && N[b].attrs["name"] == StrAttr(SoftName(O[n]))
                  && N[b].inputs == map[0 := Some(AlphaOut(O, n)), 1 := if AppliesBeta(O, n) then Some(Src(b + 1, 0)) else O[n].inputs[2]])
            && (AppliesBeta(O, n) ==>
                  && N[b + 1] == MoNode("Mul", "", BetaAttrs(SoftName(O[n])), map[0 := O[n].inputs[2], 1 := Some(Src(b + 2, 0))])
                  && N[b + 2] == ConstNode(O[n].attrs["beta"]))
  {
    assert Connected(M, n, 2) == Connected(O, n, 2);
  }

  /** The alpha step keeps n's inputs and appends two nodes exactly when alpha is applied. */
  lemma {:induction false} AlphaStageShape(O: seq<MoNode>, M: seq<MoNode>, n: nat)
    requires n < |O| && AttrsTyped(O[n])
    requires AlphaStage(O, M, n, SoftName(O[n]))
    ensures |M| == BiasIndex(O, n) && n < |M| && M[n].inputs == O[n].inputs
  {
  }

  lemma {:induction false} GemmFrameCompose(O: seq<MoNode>, M: seq<MoNode>, P: seq<MoNode>, N: seq<MoNode>, n: nat)
    requires Closed(O) && n < |O| && AttrsTyped(O[n])
    requires AlphaStage(O, M, n, SoftName(O[n]))
    requires n < |M| && BiasBetaStage(M, P, n, AlphaOut(O, n), SoftName(O[n]), Scales(O[n], "beta"), BetaValue(O[n]))
    requires n < |P| && N == P[n := AsMatMul(P[n], GemmFlags(P[n]))]
    ensures GemmFramePart(O, N, n)
  {
    AlphaStageShape(O, M, n);
    AlphaFrame(O, M, n);
    BiasFrame(M, P, n, AlphaOut(O, n), SoftName(O[n]), Scales(O[n], "beta"), BetaValue(O[n]));
    GemmFrameCore(O, M, P, N, n);
  }

  /** The alpha step moves the other nodes' reads of n to the alpha Mul, and changes nothing else about them. */
  lemma {:induction false} AlphaFrame(O: seq<MoNode>, M: seq<MoNode>, n: nat)
    requires n < |O| && AttrsTyped(O[n])
    requires AlphaStage(O, M, n, SoftName(O[n]))
    ensures |O| <= |M|
    ensures forall i :: 0 <= i < |O| && i != n ==>
              M[i] == if Scales(O[n], "alpha") then O[i].(inputs := Retarget(O[i].inputs, Src(n, 0), Src(|O|, 0))) else O[i]
  {
  }

  /** The bias step moves the other nodes' reads of `out` to the Add, and changes nothing else about them. */
  lemma {:induction false} BiasFrame(M: seq<MoNode>, P: seq<MoNode>, n: nat, out: Src, name: string, beta: bool, betaValue: Attr)
    requires n < |M| && BiasBetaStage(M, P, n, out, name, beta, betaValue)
    ensures |M| <= |P|
    ensures forall i :: 0 <= i < |M| && i != n ==>
              P[i] == if Connected(M, n, 2) then M[i].(inputs := Retarget(M[i].inputs, out, Src(|M|, 0))) else M[i]
  {
  }

  lemma {:induction false} GemmFrameCore(O: seq<MoNode>, M: seq<MoNode>, P: seq<MoNode>, N: seq<MoNode>, n: nat)
    requires Closed(O) && n < |O| && AttrsTyped(O[n])
    requires |M| == BiasIndex(O, n) && n < |M| && M[n].inputs == O[n].inputs
    requires forall i :: 0 <= i < |O| && i != n ==>
               M[i] == if Scales(O[n], "alpha") then O[i].(inputs := Retarget(O[i].inputs, Src(n, 0), Src(|O|, 0))) else O[i]
    requires |M| <= |P|
    requires forall i :: 0 <= i < |M| && i != n ==>
               P[i] == if Connected(M, n, 2) then M[i].(inputs := Retarget(M[i].inputs, AlphaOut(O, n), Src(|M|, 0))) else M[i]
    requires N == P[n := AsMatMul(P[n], GemmFlags(P[n]))]
    ensures GemmFramePart(O, N, n)
  {
    var alpha := Scales(O[n], "alpha");
    var bias := Connected(O, n, 2);
    assert Connected(M, n, 2) == bias;
    var out := AlphaOut(O, n);
    var last := LastOut(O, n);
    forall i | 0 <= i < |O| && i != n
      ensures N[i] == O[i].(inputs := Retarget(O[i].inputs, Src(n, 0), last))
    {
      assert N[i] == P[i];
      if alpha {
        ClosedUnread(O, i, |O|, 0);
        if bias {
          RetargetCompose(O[i].inputs, Src(n, 0), out, last);
        }
      } else if bias {
        assert M[i] == O[i];
      }
    }
  }

  lemma {:induction false} GemmCompose(O: seq<MoNode>, M: seq<MoNode>, P: seq<MoNode>, N: seq<MoNode>, n: nat)
    requires Closed(O) && n < |O| && AttrsTyped(O[n])
    requires AlphaStage(O, M, n, SoftName(O[n]))
    requires n < |M| && BiasBetaStage(M, P, n, AlphaOut(O, n), SoftName(O[n]), Scales(O[n], "beta"), BetaValue(O[n]))
    requires n < |P| && N == P[n := AsMatMul(P[n], GemmFlags(P[n]))]
    ensures GemmDecomposed(O, N, n)
  {
    GemmNodeCompose(O, M, P, N, n);
    GemmAppendedCompose(O, M, P, N, n);
    GemmFrameCompose(O, M, P, N, n);
  }

  /** Lines 78-104: one Gemm decomposed into MatMul, alpha Mul, bias Add and beta Mul. */
  method GemmOne(g: MoGraph, n: nat)
    requires g.Valid() && n < |g.nodes| && AttrsTyped(g.nodes[n])
    modifies g
    ensures g.Valid() && GemmDecomposed(old(g.nodes), g.nodes, n)
  {
    ghost var O := g.nodes;
    var node := g.nodes[n];
    var name := SoftName(node);
    var out := GemmAlpha(g, n, name);
    ghost var M := g.nodes;
    assert M[n].inputs == O[n].inputs;
    GemmBias(g, n, out, name, Scales(node, "beta"), BetaValue(node));
    ghost var P := g.nodes;
    g.MakeMatMul(n, GemmFlags(g.nodes[n]));
    GemmCompose(O, M, P, g.nodes, n);
  }

  /** The same in-ports, each connected in one exactly when in the other. */
  predicate SamePorts(a: Ports, b: Ports) {
    a.Keys == b.Keys && forall p :: p in a ==> (a[p].Some? <==> b[p].Some?)
  }

  /**
   * Node m is what GemmDecomposer makes of the Gemm o, whose port 2 was `connected`: a
   * MatMul with o's transpose flags, alpha and beta deleted exactly when applied, renamed
   * `/WithoutBiases` when the bias was split off, and port 2 cut; its remaining inputs may
   * since have been moved to other producers.
   */
  predicate GemmRewritten(o: MoNode, connected: bool, m: MoNode)
    requires AttrsTyped(o)
  {
    && m.op == "MatMul" && "type" in m.attrs && m.attrs["type"] == StrAttr("MatMul")
    && "transpose_a" in m.attrs && m.attrs["transpose_a"] == BoolAttr(HasAndSet(o, "transpose_a"))
    && "transpose_b" in m.attrs && m.attrs["transpose_b"] == BoolAttr(HasAndSet(o, "transpose_b"))
    && ("alpha" in m.attrs <==> "alpha" in o.attrs && !Scales(o, "alpha"))
    && ("beta" in m.attrs <==> "beta" in o.attrs && !(connected && Scales(o, "beta")))
    && (connected ==> "name" in m.attrs && m.attrs["name"] == StrAttr(SoftName(o) + "/WithoutBiases"))
    && SamePorts(if connected then o.inputs[2 := None] else o.inputs, m.inputs)
  }

  /**
   * What one decomposition does to the ops: n is rewritten, other old nodes change only
   * where their connected ports lead, and every new node is a Mul, Const or Add.
   */
  lemma {:induction false} GemmDecomposedOps(O: seq<MoNode>, N: seq<MoNode>, n: nat)
    requires n < |O| && AttrsTyped(O[n]) && GemmDecomposed(O, N, n)
    ensures |O| <= |N| && N[n].op == "MatMul" && GemmRewritten(O[n], Connected(O, n, 2), N[n])
    ensures forall i :: 0 <= i < |O| && i != n ==>
              N[i] == O[i].(inputs := N[i].inputs) && SamePorts(O[i].inputs, N[i].inputs)
    ensures forall i :: |O| <= i < |N| ==> N[i].op in {"Mul", "Const", "Add"}
  {
    var b := BiasIndex(O, n);
    forall i | |O| <= i < |N|
      ensures N[i].op in {"Mul", "Const", "Add"}
    {
      if Scales(O[n], "alpha") && i < |O| + 2 {
        assert i == |O| || i == |O| + 1;
      } else if i == b {
      } else {
        assert AppliesBeta(O, n) && (i == b + 1 || i == b + 2);
      }
    }
  }

  /** Every Gemm's attributes carry the types the pass reads: strings for names, numbers for alpha and beta. */
  predicate GemmsTyped(nodes: seq<MoNode>) {
    forall i :: 0 <= i < |nodes| && nodes[i].op == "Gemm" ==> AttrsTyped(nodes[i])
  }

  /** A later decomposition keeps an earlier rewrite: it leaves op, attributes and connected ports of other nodes. */
  lemma {:induction false} GemmRewrittenStable(o: MoNode, connected: bool, m: MoNode, m': MoNode)
    requires AttrsTyped(o) && GemmRewritten(o, connected, m)
    requires m'.op == m.op && m'.attrs == m.attrs && SamePorts(m.inputs, m'.inputs)
    ensures GemmRewritten(o, connected, m')
  {
  }

  /**
   * GemmDecomposer's loop invariant over the original nodes O: the Gemms before k are
   * rewritten, the other nodes before k keep op and attributes, the nodes from k on change
   * only where their connected ports lead, and every appended node is a Mul, Const or Add.
   */
  ghost predicate GemmsDoneUpTo(O: seq<MoNode>, N: seq<MoNode>, k: nat)
    requires GemmsTyped(O)
  {
    && k <= |O| <= |N|
    && (forall i :: 0 <= i < k && O[i].op == "Gemm" ==> GemmRewritten(O[i], Connected(O, i, 2), N[i]))
    && (forall i :: 0 <= i < k && O[i].op != "Gemm" ==> N[i].op == O[i].op && N[i].attrs == O[i].attrs)
    && (forall i :: k <= i < |O| ==> N[i] == O[i].(inputs := N[i].inputs) && SamePorts(O[i].inputs, N[i].inputs))
    && (forall i :: |O| <= i < |N| ==> N[i].op in {"Mul", "Const", "Add"})
  }

  /** Decomposing the Gemm at k moves the invariant on to k + 1. */
  lemma {:induction false} GemmStep(O: seq<MoNode>, B: seq<MoNode>, N: seq<MoNode>, k: nat)
    requires GemmsTyped(O) && k < |O| && GemmsDoneUpTo(O, B, k) && O[k].op == "Gemm"
    requires AttrsTyped(B[k]) && GemmDecomposed(B, N, k)
    ensures GemmsDoneUpTo(O, N, k + 1)
  {
    GemmDecomposedOps(B, N, k);
    assert Connected(B, k, 2) == Connected(O, k, 2);
    assert GemmRewritten(O[k], Connected(O, k, 2), N[k]) by {
      assert B[k] == O[k].(inputs := B[k].inputs);
    }
    forall i | 0 <= i < k && O[i].op == "Gemm"
      ensures GemmRewritten(O[i], Connected(O, i, 2), N[i])
    {
      GemmRewrittenStable(O[i], Connected(O, i, 2), B[i], N[i]);
    }
  }

  /** GemmDecomposer.find_and_replace_pattern: every Gemm of the graph, in order, decomposed. */
  method GemmDecomposer(g: MoGraph)
    requires g.Valid() && GemmsTyped(g.nodes)
    modifies g
    ensures g.Valid() && |old(g.nodes)| <= |g.nodes|
    ensures forall i :: 0 <= i < |old(g.nodes)| && old(g.nodes)[i].op == "Gemm" ==>
              GemmRewritten(old(g.nodes)[i], Connected(old(g.nodes), i, 2), g.nodes[i])
    ensures forall i :: 0 <= i < |old(g.nodes)| && old(g.nodes)[i].op != "Gemm" ==>
              g.nodes[i].op == old(g.nodes)[i].op && g.nodes[i].attrs == old(g.nodes)[i].attrs
    ensures forall i :: |old(g.nodes)| <= i < |g.nodes| ==> g.nodes[i].op in {"Mul", "Const", "Add"}
    ensures forall i :: 0 <= i < |g.nodes| ==> g.nodes[i].op != "Gemm"
  {
    var O := g.nodes;
    var k := 0;
    while k < |O|
      invariant g.Valid() && GemmsDoneUpTo(O, g.nodes, k)
    {
      if O[k].op == "Gemm" {
        assert AttrsTyped(g.nodes[k]);
        ghost var B := g.nodes;
        GemmOne(g, k);
        GemmStep(O, B, g.nodes, k);
      }
      k := k + 1;
    }
  }

}
