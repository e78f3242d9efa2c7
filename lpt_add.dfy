/**
 * The low-precision AddTransformation: an Add whose inputs carry dequantization
 * (Subtract of a shift, Multiply by a scale) is rebuilt so that one Multiply by the
 * empty-path scale follows the Add, and the constant-input Add canonicalisations
 * (x + c to x - (-c), and (x - c1) + c2 to x - (c1 - c2)).
 */
module LptAdd {
  import opened Wrappers
  import opened ElementTypes
  import opened PartialShapes
  import opened Graphs

  /** Add, Subtract, Multiply and MatMul nodes have two inputs; Convert and Negative one. */
  predicate Arities(nodes: seq<Node>) {
    forall i :: 0 <= i < |nodes| ==>
      (nodes[i].kind in {AddOp, SubtractOp, MultiplyOp, DivideOp, MatMulOp} ==> |nodes[i].inputs| == 2) &&
      (nodes[i].kind in {ConvertOp, NegativeOp} ==> |nodes[i].inputs| == 1) &&
      (nodes[i].kind == ConstantOp ==> nodes[i].inputs == [])
  }

  predicate IsConstant(nodes: seq<Node>, i: nat) {
    i < |nodes| && nodes[i].kind == ConstantOp
  }

  // ---------------------------------------------------------------------------
  // Constant folding over flat values

  /** The folded operands broadcast: the same number of values, or one of them a single value. */
  predicate Broadcastable(a: seq<real>, b: seq<real>) {
    |a| == |b| || |a| == 1 || |b| == 1
  }

  function Negate(a: seq<real>): (r: seq<real>)
    ensures |r| == |a| && forall i :: 0 <= i < |a| ==> r[i] == -a[i]
  {
    seq(|a|, i requires 0 <= i < |a| => -a[i])
  }

  /** Elementwise a - b with a single value broadcast against the other operand. */
  function BroadcastSub(a: seq<real>, b: seq<real>): (r: seq<real>)
    requires Broadcastable(a, b)
    ensures |a| == |b| ==> |r| == |a| && forall i :: 0 <= i < |a| ==> r[i] == a[i] - b[i]
    ensures |a| != |b| && |b| == 1 ==> |r| == |a| && forall i :: 0 <= i < |a| ==> r[i] == a[i] - b[0]
    ensures |a| != |b| && |b| != 1 ==> |r| == |b| && forall i :: 0 <= i < |b| ==> r[i] == a[0] - b[i]
  {
    if |a| == |b| then seq(|a|, i requires 0 <= i < |a| => a[i] - b[i])
    else if |b| == 1 then seq(|a|, i requires 0 <= i < |a| => a[i] - b[0])
    else seq(|b|, i requires 0 <= i < |b| => a[0] - b[i])
  }

  function AddValues(a: seq<real>, b: seq<real>): (r: seq<real>)
    requires |a| == |b|
    ensures |r| == |a| && forall i :: 0 <= i < |a| ==> r[i] == a[i] + b[i]
  {
    seq(|a|, i requires 0 <= i < |a| => a[i] + b[i])
  }

  /** x + c computes what x - (-c) computes. */
  lemma {:induction false} SubtractNegatedIsAdd(x: seq<real>, c: seq<real>)
    requires |x| == |c|
    ensures BroadcastSub(x, Negate(c)) == AddValues(x, c)
  {
  }

  /** (x - c1) + c2 computes what x - (c1 - c2) computes. */
  lemma {:induction false} FusedSubtractIsAdd(x: seq<real>, c1: seq<real>, c2: seq<real>)
    requires |x| == |c1| == |c2|
    ensures AddValues(BroadcastSub(x, c1), c2) == BroadcastSub(x, BroadcastSub(c1, c2))
  {
  }

  // ---------------------------------------------------------------------------
  // replaceToSubtract

  /** Which input of the Add is a Constant: 0 is preferred, -1 when neither is. */
  function ConstBranchIndex(nodes: seq<Node>, add: nat): (r: int)
    requires Closed(nodes) && add < |nodes| && |nodes[add].inputs| == 2
    ensures r == 0 <==> IsConstant(nodes, nodes[add].inputs[0])
    ensures r == 1 <==> !IsConstant(nodes, nodes[add].inputs[0]) && IsConstant(nodes, nodes[add].inputs[1])
    ensures r == -1 <==> !IsConstant(nodes, nodes[add].inputs[0]) && !IsConstant(nodes, nodes[add].inputs[1])
  {
    if IsConstant(nodes, nodes[add].inputs[0]) then 0
    else if IsConstant(nodes, nodes[add].inputs[1]) then 1
    else -1
  }

  /** A data producer that keeps its Add: a convolution, or a MatMul with a Constant input. */
  predicate KeepsAdd(nodes: seq<Node>, parent: nat)
    requires Closed(nodes) && Arities(nodes) && parent < |nodes|
  {
    nodes[parent].kind in {ConvolutionOp, GroupConvolutionOp, ConvolutionBackpropDataOp} ||
    (nodes[parent].kind == MatMulOp &&
     (IsConstant(nodes, nodes[parent].inputs[0]) || IsConstant(nodes, nodes[parent].inputs[1])))
  }

  /** replaceToSubtract applies: an Add with a Constant input whose data producer does not keep it. */
  predicate ReplaceableBySubtract(nodes: seq<Node>, op: nat)
    requires Closed(nodes) && Arities(nodes) && op < |nodes|
  {
    && nodes[op].kind == AddOp
    && ConstBranchIndex(nodes, op) != -1
    && !KeepsAdd(nodes, nodes[op].inputs[1 - ConstBranchIndex(nodes, op)])
  }

  /** `fold<Negative>` of a Constant. */
  function NegatedConstant(c: Node): (r: Node)
    ensures r.kind == ConstantOp && r.values == Negate(c.values)
  {
    Node(ConstantOp, "", [], c.shape, c.elementType, Negate(c.values))
  }

  /** The graph replaceToSubtract leaves: x - (-c) at the end, in place of x + c. */
  function ReplacedBySubtract(nodes: seq<Node>, op: nat): (r: seq<Node>)
    requires Closed(nodes) && Arities(nodes) && op < |nodes| && ReplaceableBySubtract(nodes, op)
    ensures |r| == |nodes| + 2
  {
    ReplaceUses(nodes + SubtractPair(nodes, op), op, |nodes| + 1)
  }

  /** The two nodes replaceToSubtract appends: -c, and the Subtract of it from the data input. */
  function SubtractPair(nodes: seq<Node>, op: nat): (r: seq<Node>)
    requires Closed(nodes) && Arities(nodes) && op < |nodes| && ReplaceableBySubtract(nodes, op)
    ensures |r| == 2
  {
    var c := ConstBranchIndex(nodes, op);
    var data := nodes[op].inputs[1 - c];
    [NegatedConstant(nodes[nodes[op].inputs[c]]),
     Node(SubtractOp, "", [data, |nodes|], nodes[op].shape, nodes[op].elementType, [])]
  }

  /** replaceToSubtract: x + c becomes x - (-c), which takes over the Add's consumers. */
  method ReplaceToSubtract(g: Graph, op: nat) returns (sub: Option<nat>)
    requires g.Valid() && Arities(g.nodes) && op < |g.nodes|
    modifies g
    ensures sub.None? <==> !ReplaceableBySubtract(old(g.nodes), op)
    ensures sub.None? ==> g.nodes == old(g.nodes)
    ensures sub.Some? ==> sub.value == |old(g.nodes)| + 1 && g.nodes == ReplacedBySubtract(old(g.nodes), op)
    ensures g.Valid()
  {
    if g.nodes[op].kind != AddOp {
      return None;
    }
    var c := ConstBranchIndex(g.nodes, op);
    if c == -1 {
      return None;
    }
    var data := g.nodes[op].inputs[1 - c];
    if KeepsAdd(g.nodes, data) {
      return None;
    }
    ghost var O := g.nodes;
    var add := g.nodes[op];
    var neg := g.AddNode(NegatedConstant(g.nodes[add.inputs[c]]));
    var s := g.AddNode(Node(SubtractOp, "", [data, neg], add.shape, add.elementType, []));
    g.ReplaceNode(op, s);
    sub := Some(s);
  }

  /** After replaceToSubtract nothing reads the Add; the Subtract reads its data input and -c. */
  lemma {:induction false} ReplacedBySubtractShape(nodes: seq<Node>, op: nat)
    requires Closed(nodes) && Topological(nodes) && Arities(nodes) && op < |nodes| && ReplaceableBySubtract(nodes, op)
    ensures var r := ReplacedBySubtract(nodes, op);
            var c := ConstBranchIndex(nodes, op);
            && UseCount(r, op) == 0
            && r[|nodes| + 1].kind == SubtractOp
            && r[|nodes| + 1].inputs == [nodes[op].inputs[1 - c], |nodes|]
            && r[|nodes|].values == Negate(nodes[nodes[op].inputs[c]].values)
  {
    var c := ConstBranchIndex(nodes, op);
    var pair := SubtractPair(nodes, op);
    assert nodes[op].inputs[1 - c] < op;
    ReplacedPair(nodes, pair, op);
  }

  /** Two appended nodes that do not read `op`, the second replacing it, are kept as they are and leave no reader of `op`. */
  lemma {:induction false} ReplacedPair(nodes: seq<Node>, pair: seq<Node>, op: nat)
    requires op < |nodes| && |pair| == 2 && op !in pair[0].inputs && op !in pair[1].inputs
    ensures var r := ReplaceUses(nodes + pair, op, |nodes| + 1);
            UseCount(r, op) == 0 && r[|nodes|] == pair[0] && r[|nodes| + 1] == pair[1]
  {
    var M := nodes + pair;
    ReplaceUsesMovesConsumers(M, op, |nodes| + 1, op);
    ReplaceUsesLeavesNonConsumers(M, op, |nodes| + 1, |nodes| + 1);
    ReplaceUsesLeavesNonConsumers(M, op, |nodes| + 1, |nodes|);
  }

  /** Two appended nodes, the second replacing `op`: every node, old or new, has its uses of `op` moved to the second. */
  lemma {:induction false} ReplacedAppended(nodes: seq<Node>, a: Node, b: Node, op: nat)
    requires op < |nodes|
    ensures var r := ReplaceUses(nodes + [a, b], op, |nodes| + 1);
            && UseCount(r, op) == 0
            && (forall i :: 0 <= i < |nodes| ==> r[i] == nodes[i].(inputs := Redirect(nodes[i].inputs, op, |nodes| + 1)))
            && r[|nodes|] == a.(inputs := Redirect(a.inputs, op, |nodes| + 1))
            && r[|nodes| + 1] == b.(inputs := Redirect(b.inputs, op, |nodes| + 1))
  {
    var M := nodes + [a, b];
    ReplaceUsesMovesConsumers(M, op, |nodes| + 1, op);
    assert forall i :: 0 <= i < |nodes| ==> M[i] == nodes[i];
  }

  // ---------------------------------------------------------------------------
  // fuseWithSubtract

  /** fuseWithSubtract applies: an Add whose input 0 is a Subtract of a Constant. */
  predicate FusableWithSubtract(nodes: seq<Node>, op: nat)
    requires Closed(nodes) && Arities(nodes) && op < |nodes|
  {
    && nodes[op].kind == AddOp
    && nodes[nodes[op].inputs[0]].kind == SubtractOp
    && IsConstant(nodes, nodes[nodes[op].inputs[0]].inputs[1])
  }

  /** Both folded operands are Constants whose values broadcast. */
  predicate FoldableOperands(nodes: seq<Node>, op: nat)
    requires Closed(nodes) && Arities(nodes) && op < |nodes| && FusableWithSubtract(nodes, op)
  {
    var c1 := nodes[nodes[nodes[op].inputs[0]].inputs[1]];
    IsConstant(nodes, nodes[op].inputs[1]) && Broadcastable(c1.values, nodes[nodes[op].inputs[1]].values)
  }

  /**
   * `fold<Subtract>(c1, y)`: a Constant holding c1 - y when y is a Constant, otherwise the
   * Subtract node itself.
   */
  function FoldSubtract(nodes: seq<Node>, c1: nat, y: nat): (r: Node)
    requires c1 < |nodes| && y < |nodes| && nodes[c1].kind == ConstantOp
    requires nodes[y].kind == ConstantOp ==> Broadcastable(nodes[c1].values, nodes[y].values)
    ensures nodes[y].kind == ConstantOp ==> r.kind == ConstantOp && r.values == BroadcastSub(nodes[c1].values, nodes[y].values)
    ensures nodes[y].kind != ConstantOp ==> r.kind == SubtractOp && r.inputs == [c1, y]
  {
    if nodes[y].kind == ConstantOp then
      Node(ConstantOp, "", [], if |nodes[c1].values| >= |nodes[y].values| then nodes[c1].shape else nodes[y].shape,
           nodes[c1].elementType, BroadcastSub(nodes[c1].values, nodes[y].values))
    else Node(SubtractOp, "", [c1, y], nodes[c1].shape, nodes[c1].elementType, [])
  }

  /** The graph fuseWithSubtract leaves: x - fold(c1 - c2) in place of (x - c1) + c2. */
  function FusedWithSubtract(nodes: seq<Node>, op: nat): (r: seq<Node>)
    requires Closed(nodes) && Arities(nodes) && op < |nodes| && FusableWithSubtract(nodes, op)
    requires IsConstant(nodes, nodes[op].inputs[1]) ==> FoldableOperands(nodes, op)
    ensures |r| == |nodes| + 2
  {
    var s := nodes[op].inputs[0];
    var folded := FoldSubtract(nodes, nodes[s].inputs[1], nodes[op].inputs[1]);
    var sub := Node(SubtractOp, "", [nodes[s].inputs[0], |nodes|], nodes[op].shape, nodes[op].elementType, []);
    ReplaceUses(nodes + [folded, sub], op, |nodes| + 1)
  }

  /** fuseWithSubtract: (x - c1) + c2 becomes x - (c1 - c2), which takes over the Add's consumers. */
  method FuseWithSubtract(g: Graph, op: nat) returns (sub: Option<nat>)
    requires g.Valid() && Arities(g.nodes) && op < |g.nodes|
    requires FusableWithSubtract(g.nodes, op) && IsConstant(g.nodes, g.nodes[op].inputs[1]) ==> FoldableOperands(g.nodes, op)
    modifies g
    ensures sub.None? <==> !FusableWithSubtract(old(g.nodes), op)
    ensures sub.None? ==> g.nodes == old(g.nodes)
    ensures sub.Some? ==> sub.value == |old(g.nodes)| + 1 && g.nodes == FusedWithSubtract(old(g.nodes), op)
    ensures g.Valid()
  {
    if !(g.nodes[op].kind == AddOp && g.nodes[g.nodes[op].inputs[0]].kind == SubtractOp &&
         IsConstant(g.nodes, g.nodes[g.nodes[op].inputs[0]].inputs[1])) {
      return None;
    }
    var add := g.nodes[op];
    var s := add.inputs[0];
    var folded := g.AddNode(FoldSubtract(g.nodes, g.nodes[s].inputs[1], add.inputs[1]));
    var newSub := g.AddNode(Node(SubtractOp, "", [g.nodes[s].inputs[0], folded], add.shape, add.elementType, []));
    g.ReplaceNode(op, newSub);
    sub := Some(newSub);
  }

  // ---------------------------------------------------------------------------
  // The dequantization re-association

  /**
   * The dequantization found on one Add input by getDequantization: the data node, an
   * optional Convert, and the optional shift and scale (one value each).
   */
  datatype Dequantization = Dequantization(data: nat, convert: Option<nat>, shift: Option<real>, scale: Option<real>)
  {
    predicate Empty() { convert.None? && shift.None? && scale.None? }

    /** createEmptyValues: a missing shift is 0 and a missing scale is 1. */
    function ShiftValue(): real { shift.GetOr(0.0) }
    function ScaleValue(): real { scale.GetOr(1.0) }

    predicate MultiplyHasZeroOrDenormal(zeroOrDenormal: real -> bool) {
      scale.Some? && zeroOrDenormal(scale.value)
    }
  }

  /** canBeTransformed: neither branch's scale is zero or denormal, and the eltwise checks pass. */
  predicate CanBeTransformed(deq0: Dequantization, deq1: Dequantization, zeroOrDenormal: real -> bool, eltwiseOk: bool) {
    !deq0.MultiplyHasZeroOrDenormal(zeroOrDenormal) && !deq1.MultiplyHasZeroOrDenormal(zeroOrDenormal) && eltwiseOk
  }

  /** A zero scale on either branch blocks the transformation. */
  lemma {:induction false} ZeroScaleBlocks(deq0: Dequantization, deq1: Dequantization, zeroOrDenormal: real -> bool, eltwiseOk: bool)
    requires zeroOrDenormal(0.0)
    requires deq0.scale == Some(0.0) || deq1.scale == Some(0.0)
    ensures !CanBeTransformed(deq0, deq1, zeroOrDenormal, eltwiseOk)
  {
  }

  /** The input that keeps no dequantization: the other one. */
  function EmptyPathIndex(fullPathIndex: nat): (e: nat)
    requires fullPathIndex < 2
    ensures e < 2 && e != fullPathIndex && e + fullPathIndex == 1
  {
    if fullPathIndex == 0 then 1 else 0
  }

  /** SH1' = SH1 + SH2 * SC2 / SC1 (full path 1, empty path 2). */
  function DerivedShift(shiftFull: real, scaleFull: real, shiftEmpty: real, scaleEmpty: real): real
    requires scaleFull != 0.0
  {
    shiftFull + (shiftEmpty * scaleEmpty) / scaleFull
  }

  /** SC1' = SC1 / SC2. */
  function DerivedScale(scaleFull: real, scaleEmpty: real): real
    requires scaleEmpty != 0.0
  {
    scaleFull / scaleEmpty
  }

  /** A dequantized value: scale * (x - shift). */
  function Dequantize(x: real, shift: real, scale: real): real {
    scale * (x - shift)
  }

  lemma {:induction false} DivMulCancel(a: real, b: real)
    requires b != 0.0
    ensures (a / b) * b == a
  {
  }

  /**
   * The re-associated graph computes the original sum:
   * SC2 * ((X1 - SH1') * SC1' + X2) = SC1 * (X1 - SH1) + SC2 * (X2 - SH2).
   */
  lemma {:induction false} ReassociationPreservesSum(xFull: real, shiftFull: real, scaleFull: real,
                                                     xEmpty: real, shiftEmpty: real, scaleEmpty: real)
    requires scaleFull != 0.0 && scaleEmpty != 0.0
    ensures scaleEmpty * ((xFull - DerivedShift(shiftFull, scaleFull, shiftEmpty, scaleEmpty)) * DerivedScale(scaleFull, scaleEmpty) + xEmpty)
            == Dequantize(xFull, shiftFull, scaleFull) + Dequantize(xEmpty, shiftEmpty, scaleEmpty)
  {
    var k := (shiftEmpty * scaleEmpty) / scaleFull;
    var q := scaleFull / scaleEmpty;
    assert k * scaleFull == shiftEmpty * scaleEmpty by { DivMulCancel(shiftEmpty * scaleEmpty, scaleFull); }
    assert q * scaleEmpty == scaleFull by { DivMulCancel(scaleFull, scaleEmpty); }
    calc {
      scaleEmpty * ((xFull - (shiftFull + k)) * q + xEmpty);
      (xFull - (shiftFull + k)) * (q * scaleEmpty) + scaleEmpty * xEmpty;
      (xFull - (shiftFull + k)) * scaleFull + scaleEmpty * xEmpty;
      scaleFull * (xFull - shiftFull) - k * scaleFull + scaleEmpty * xEmpty;
      scaleFull * (xFull - shiftFull) - shiftEmpty * scaleEmpty + scaleEmpty * xEmpty;
      Dequantize(xFull, shiftFull, scaleFull) + Dequantize(xEmpty, shiftEmpty, scaleEmpty);
    }
  }

  function ScalarConstant(v: real, t: ElementType): Node {
    Node(ConstantOp, "", [], FromShape([1]), t, [v])
  }

  predicate IsScalarConstant(nodes: seq<Node>, i: nat, v: real) {
    i < |nodes| && nodes[i].kind == ConstantOp && nodes[i].values == [v]
  }

  /**
   * Node x of N is src, or, when src's type is not t, a Convert of src to t created at or
   * after position base.
   */
  predicate ConvertedTo(N: seq<Node>, base: nat, x: nat, src: nat, t: ElementType)
    requires src < |N|
  {
    if N[src].elementType != t
    then base <= x < |N| && N[x].kind == ConvertOp && N[x].inputs == [src] && N[x].elementType == t
    else x == src
  }

  /**
   * Node x of N feeds the full path's Multiply: Subtract(in, SH1') created at or after
   * position base, or `in` itself when SH1' is zero, with `in` converted to the constants'
   * type when its own type differs.
   */
  predicate ShiftedPath(N: seq<Node>, base: nat, x: nat, fullInput: nat, shift: real, t: ElementType)
    requires Closed(N) && fullInput < |N|
  {
    if shift == 0.0 then ConvertedTo(N, base, x, fullInput, t)
    else base <= x < |N| && N[x].kind == SubtractOp && |N[x].inputs| == 2 &&
         base <= N[x].inputs[1] && IsScalarConstant(N, N[x].inputs[1], shift) &&
         ConvertedTo(N, base, N[x].inputs[0], fullInput, t)
  }

  /** Node m of N is the rebuilt full path, Multiply(shifted path, SC1'), created at or after base. */
  predicate FullPath(N: seq<Node>, base: nat, m: nat, fullInput: nat, shift: real, scale: real, t: ElementType)
    requires Closed(N) && fullInput < |N|
  {
    && base <= m < |N| && N[m].kind == MultiplyOp && |N[m].inputs| == 2
    && base <= N[m].inputs[1] && IsScalarConstant(N, N[m].inputs[1], scale)
    && ShiftedPath(N, base, N[m].inputs[0], fullInput, shift, t)
  }

  /**
   * In a full path built after position base, the Multiply reads a new Subtract exactly when
   * SH1' is non-zero; with a zero SH1' it reads the full-path input itself or its Convert.
   */
  lemma {:induction false} ZeroShiftNeedsNoSubtract(N: seq<Node>, base: nat, m: nat, fullInput: nat, shift: real, scale: real, t: ElementType)
    requires Closed(N) && fullInput < base && fullInput < |N| && FullPath(N, base, m, fullInput, shift, scale, t)
    ensures var x := N[m].inputs[0];
            && ((base <= x && N[x].kind == SubtractOp) <==> shift != 0.0)
            && (shift == 0.0 ==> x == fullInput || (N[x].kind == ConvertOp && N[x].inputs == [fullInput]))
  {
  }

  /** Appending nodes keeps a shifted path. */
  lemma {:induction false} ShiftedPathStable(M: seq<Node>, N: seq<Node>, base: nat, x: nat, fullInput: nat, shift: real, t: ElementType)
    requires Closed(M) && Closed(N) && |M| <= |N| && N[..|M|] == M && fullInput < |M|
    requires ShiftedPath(M, base, x, fullInput, shift, t)
    ensures ShiftedPath(N, base, x, fullInput, shift, t)
  {
    assert forall k :: 0 <= k < |M| ==> N[k] == M[k];
  }

  /** Appending nodes keeps a full path. */
  lemma {:induction false} FullPathStable(M: seq<Node>, N: seq<Node>, base: nat, m: nat, fullInput: nat, shift: real, scale: real, t: ElementType)
    requires Closed(M) && Closed(N) && |M| <= |N| && N[..|M|] == M && fullInput < |M|
    requires FullPath(M, base, m, fullInput, shift, scale, t)
    ensures FullPath(N, base, m, fullInput, shift, scale, t)
  {
    assert forall k :: 0 <= k < |M| ==> N[k] == M[k];
    ShiftedPathStable(M, N, base, M[m].inputs[0], fullInput, shift, t);
  }

  /** Inserts a Convert of src to t when src has another type. */
  method ConvertIfNeeded(g: Graph, src: nat, t: ElementType, ghost avoid: nat) returns (x: nat)
    requires g.Valid() && src < |g.nodes| && avoid < |g.nodes| && avoid != src
    modifies g
    ensures g.Valid() && |old(g.nodes)| <= |g.nodes| && g.nodes[..|old(g.nodes)|] == old(g.nodes)
    ensures x < |g.nodes| && ConvertedTo(g.nodes, |old(g.nodes)|, x, src, t)
    ensures forall k :: |old(g.nodes)| <= k < |g.nodes| ==> avoid !in g.nodes[k].inputs
  {
    if g.nodes[src].elementType != t {
      x := g.AddNode(Node(ConvertOp, "", [src], g.nodes[src].shape, t, []));
    } else {
      x := src;
    }
  }

  /** Builds the input of the full path's Multiply: optional Convert, then a Subtract unless SH1' is zero. */
  method BuildShiftedPath(g: Graph, fullInput: nat, shift: real, t: ElementType, ghost avoid: nat) returns (x: nat)
    requires g.Valid() && fullInput < |g.nodes| && avoid < |g.nodes| && avoid != fullInput
    modifies g
    ensures g.Valid() && |old(g.nodes)| <= |g.nodes| && g.nodes[..|old(g.nodes)|] == old(g.nodes)
    ensures x < |g.nodes| && ShiftedPath(g.nodes, |old(g.nodes)|, x, fullInput, shift, t)
    ensures forall k :: |old(g.nodes)| <= k < |g.nodes| ==> avoid !in g.nodes[k].inputs
  {
    ghost var O := g.nodes;
    var c := ConvertIfNeeded(g, fullInput, t, avoid);
    if shift == 0.0 {
      x := c;
    } else {
      ghost var M := g.nodes;
      var sc := g.AddNode(ScalarConstant(shift, t));
      x := g.AddNode(Node(SubtractOp, "", [c, sc], g.nodes[c].shape, t, []));
      assert forall k :: 0 <= k < |M| ==> g.nodes[k] == M[k];
      assert forall k :: 0 <= k < |O| ==> g.nodes[k] == O[k];
    }
  }

  /**
   * Builds the full path of the rebuilt Add: optional Convert, optional Subtract, Multiply.
   * None of the new nodes reads `avoid`.
   */
  method BuildFullPath(g: Graph, fullInput: nat, shift: real, scale: real, t: ElementType, ghost avoid: nat) returns (m: nat)
    requires g.Valid() && fullInput < |g.nodes| && avoid < |g.nodes| && avoid != fullInput
    modifies g
    ensures g.Valid() && |old(g.nodes)| <= |g.nodes| && g.nodes[..|old(g.nodes)|] == old(g.nodes)
    ensures FullPath(g.nodes, |old(g.nodes)|, m, fullInput, shift, scale, t)
    ensures forall k :: |old(g.nodes)| <= k < |g.nodes| ==> avoid !in g.nodes[k].inputs
  {
    ghost var O := g.nodes;
    var x := BuildShiftedPath(g, fullInput, shift, t, avoid);
    ghost var M := g.nodes;
    var sc := g.AddNode(ScalarConstant(scale, t));
    m := g.AddNode(Node(MultiplyOp, "", [x, sc], g.nodes[x].shape, t, []));
    assert forall k :: 0 <= k < |M| ==> g.nodes[k] == M[k];
    ShiftedPathStable(M, g.nodes, |O|, x, fullInput, shift, t);
  }

  /**
   * The graph after the full-path rebuild: newAddOrSubtract reads the empty path's data on
   * input emptyPathIndex and the rebuilt full path on the other, newMultiply multiplies it by
   * SC2 and has taken over the Add's consumers; every old node is kept, reading newMultiply
   * where it read the Add.
   */
  ghost predicate Reassociated(O: seq<Node>, N: seq<Node>, add: nat, fullPathIndex: nat, emptyData: nat, fullInput: nat,
                               shift: real, scale: real, scaleEmpty: real, t: ElementType, newAdd: nat, newMultiply: nat)
    requires Closed(O) && Closed(N) && add < |O| && fullPathIndex < 2 && fullInput < |N|
  {
    && |O| <= newAdd < newMultiply < |N|
    && N[newAdd].kind == AddOp && |N[newAdd].inputs| == 2
    && N[newAdd].inputs[EmptyPathIndex(fullPathIndex)] == emptyData
    && FullPath(N, |O|, N[newAdd].inputs[fullPathIndex], fullInput, shift, scale, t)
    && N[newMultiply].kind == MultiplyOp && N[newMultiply].elementType == O[add].elementType
    && |N[newMultiply].inputs| == 2 && N[newMultiply].inputs[0] == newAdd
    && IsScalarConstant(N, N[newMultiply].inputs[1], scaleEmpty)
    && (forall i :: 0 <= i < |O| ==> N[i] == O[i].(inputs := Redirect(O[i].inputs, add, newMultiply)))
  }

  /**
   * The full-path branch of AddTransformation::transform for an Add whose input
   * fullPathIndex keeps dequantization.
   */
  method RebuildWithFullPath(g: Graph, add: nat, fullPathIndex: nat, emptyPath: Dequantization, fullPath: Dequantization,
                             t: ElementType) returns (newAdd: nat, newMultiply: nat)
    requires g.Valid() && add < |g.nodes| && fullPathIndex < 2
    requires emptyPath.data < add && fullPath.data < add && (fullPath.convert.Some? ==> fullPath.convert.value < add)
    requires fullPath.ScaleValue() != 0.0 && emptyPath.ScaleValue() != 0.0
    modifies g
    ensures g.Valid() && |old(g.nodes)| <= |g.nodes|
    ensures var fullInput := if fullPath.convert.None? then fullPath.data else fullPath.convert.value;
            var shift := DerivedShift(fullPath.ShiftValue(), fullPath.ScaleValue(), emptyPath.ShiftValue(), emptyPath.ScaleValue());
            var scale := DerivedScale(fullPath.ScaleValue(), emptyPath.ScaleValue());
            Reassociated(old(g.nodes), g.nodes, add, fullPathIndex, emptyPath.data, fullInput, shift, scale,
                         emptyPath.ScaleValue(), t, newAdd, newMultiply)
  {
    var O := g.nodes;
    var shift := DerivedShift(fullPath.ShiftValue(), fullPath.ScaleValue(), emptyPath.ShiftValue(), emptyPath.ScaleValue());
    var scale := DerivedScale(fullPath.ScaleValue(), emptyPath.ScaleValue());
    var fullInput := if fullPath.convert.None? then fullPath.data else fullPath.convert.value;
    var m := BuildFullPath(g, fullInput, shift, scale, t, add);
    newAdd, newMultiply := AddAndMultiply(g, O, add, fullPathIndex, emptyPath.data, fullInput, m, shift, scale,
                                          emptyPath.ScaleValue(), t);
  }

  /** Appends newAddOrSubtract over the empty path's data and m, the SC2 constant, and newMultiply. */
  method AppendAddAndMultiply(g: Graph, add: Node, fullPathIndex: nat, emptyData: nat, m: nat, scaleEmpty: real,
                              t: ElementType) returns (newAdd: nat, newMultiply: nat)
    requires g.Valid() && fullPathIndex < 2 && emptyData < |g.nodes| && m < |g.nodes|
    modifies g
    ensures g.Valid() && newAdd == |old(g.nodes)| && newMultiply == newAdd + 2
    ensures g.nodes == old(g.nodes) + [
      Node(AddOp, "", if fullPathIndex == 0 then [m, emptyData] else [emptyData, m], add.shape, F32, []),
      ScalarConstant(scaleEmpty, t),
      Node(MultiplyOp, "", [newAdd, newAdd + 1], add.shape, add.elementType, [])]
  {
    var inputs := if fullPathIndex == 0 then [m, emptyData] else [emptyData, m];
    newAdd := g.AddNode(Node(AddOp, "", inputs, add.shape, F32, []));
    var sc := g.AddNode(ScalarConstant(scaleEmpty, t));
    newMultiply := g.AddNode(Node(MultiplyOp, "", [newAdd, sc], add.shape, add.elementType, []));
  }

  /** Creates newAddOrSubtract and newMultiply over the full path m and replaces the Add. */
  method AddAndMultiply(g: Graph, O: seq<Node>, add: nat, fullPathIndex: nat, emptyData: nat, fullInput: nat, m: nat,
                        shift: real, scale: real, scaleEmpty: real, t: ElementType) returns (newAdd: nat, newMultiply: nat)
    requires g.Valid() && Closed(O) && add < |O| <= |g.nodes| && g.nodes[..|O|] == O && fullPathIndex < 2
    requires emptyData < add && fullInput < add
    requires FullPath(g.nodes, |O|, m, fullInput, shift, scale, t)
    requires forall k :: |O| <= k < |g.nodes| ==> add !in g.nodes[k].inputs
    modifies g
    ensures g.Valid() && |O| <= |g.nodes|
    ensures Reassociated(O, g.nodes, add, fullPathIndex, emptyData, fullInput, shift, scale, scaleEmpty, t, newAdd, newMultiply)
  {
    ghost var M0 := g.nodes;
    newAdd, newMultiply := AppendAddAndMultiply(g, O[add], fullPathIndex, emptyData, m, scaleEmpty, t);
    ghost var M := g.nodes;
    g.ReplaceNode(add, newMultiply);
    AddAndMultiplyCompose(O, M0, M, g.nodes, add, fullPathIndex, emptyData, fullInput, m, shift, scale, scaleEmpty, t, newAdd, newMultiply);
  }

  /** The two steps of AddAndMultiply, appending the nodes and then replace_node, give a re-associated graph. */
  lemma {:induction false} AddAndMultiplyCompose(O: seq<Node>, M0: seq<Node>, M: seq<Node>, N: seq<Node>, add: nat, fullPathIndex: nat,
                              emptyData: nat, fullInput: nat, m: nat, shift: real, scale: real, scaleEmpty: real,
                              t: ElementType, newAdd: nat, newMultiply: nat)
    requires Closed(O) && Closed(M0) && Closed(M) && add < |O| <= |M0| && M0[..|O|] == O && fullPathIndex < 2
    requires emptyData < add && fullInput < add
    requires FullPath(M0, |O|, m, fullInput, shift, scale, t)
    requires forall k :: |O| <= k < |M0| ==> add !in M0[k].inputs
    requires newAdd == |M0| && newMultiply == newAdd + 2
    requires M == M0 + [
      Node(AddOp, "", if fullPathIndex == 0 then [m, emptyData] else [emptyData, m], O[add].shape, F32, []),
      ScalarConstant(scaleEmpty, t),
      Node(MultiplyOp, "", [newAdd, newAdd + 1], O[add].shape, O[add].elementType, [])]
    requires N == ReplaceUses(M, add, newMultiply)
    ensures Closed(N)
    ensures Reassociated(O, N, add, fullPathIndex, emptyData, fullInput, shift, scale, scaleEmpty, t, newAdd, newMultiply)
  {
    assert M[..|M0|] == M0;
    assert M[..|O|] == O by { assert M[..|O|] == M[..|M0|][..|O|]; }
    FullPathStable(M0, M, |O|, m, fullInput, shift, scale, t);
    forall k | |M0| <= k < |M|
      ensures add !in M[k].inputs
    {
      var tail := M[|M0|..];
      assert M[k] == tail[k - |M0|];
      assert |O| <= m;
    }
    AddAndMultiplyReplaced(O, M, N, add, fullPathIndex, emptyData, fullInput, m, shift, scale, scaleEmpty, t, newAdd, newMultiply);
  }

  lemma {:induction false} AddAndMultiplyReplaced(O: seq<Node>, M: seq<Node>, N: seq<Node>, add: nat, fullPathIndex: nat, emptyData: nat,
                               fullInput: nat, m: nat, shift: real, scale: real, scaleEmpty: real, t: ElementType,
                               newAdd: nat, newMultiply: nat)
    requires Closed(O) && Closed(M) && add < |O| <= |M| && M[..|O|] == O && fullPathIndex < 2
    requires emptyData < add && fullInput < add
    requires |O| <= newAdd && newMultiply == |M| - 1 && newAdd + 2 == newMultiply
    requires M[newAdd].kind == AddOp && M[newAdd].inputs == (if fullPathIndex == 0 then [m, emptyData] else [emptyData, m])
    requires IsScalarConstant(M, newAdd + 1, scaleEmpty)
    requires M[newMultiply] == Node(MultiplyOp, "", [newAdd, newAdd + 1], O[add].shape, O[add].elementType, [])
    requires FullPath(M, |O|, m, fullInput, shift, scale, t)
    requires forall k :: |O| <= k < |M| ==> add !in M[k].inputs
    requires N == ReplaceUses(M, add, newMultiply)
    ensures Closed(N)
    ensures Reassociated(O, N, add, fullPathIndex, emptyData, fullInput, shift, scale, scaleEmpty, t, newAdd, newMultiply)
  {
    ReplaceUsesKeepsClosed(M, add, newMultiply);
    forall k | |O| <= k < |M|
      ensures N[k] == M[k]
    {
      ReplaceUsesLeavesNonConsumers(M, add, newMultiply, k);
    }
    FullPathAfterReplace(M, N, |O|, add, newMultiply, m, fullInput, shift, scale, t);
    forall i | 0 <= i < |O|
      ensures N[i] == O[i].(inputs := Redirect(O[i].inputs, add, newMultiply))
    {
      assert M[i] == O[i];
    }
  }

  /**
   * The full path's nodes from base on do not read the replaced Add, so replace_node leaves
   * them alone, and the full-path input keeps its element type.
   */
  lemma {:induction false} FullPathAfterReplace(M: seq<Node>, N: seq<Node>, base: nat, add: nat, to: nat, m: nat, fullInput: nat,
                             shift: real, scale: real, t: ElementType)
    requires Closed(M) && fullInput < |M| && to < |M|
    requires FullPath(M, base, m, fullInput, shift, scale, t)
    requires forall k :: base <= k < |M| ==> add !in M[k].inputs
    requires N == ReplaceUses(M, add, to)
    ensures Closed(N) && FullPath(N, base, m, fullInput, shift, scale, t)
  {
    ReplaceUsesKeepsClosed(M, add, to);
    forall k | base <= k < |M|
      ensures N[k] == M[k]
    {
      ReplaceUsesLeavesNonConsumers(M, add, to, k);
    }
    ReplaceUsesKeepsNodes(M, add, to, fullInput);
  }

  // ---------------------------------------------------------------------------
  // Both inputs without dequantization on a full path: the swapped-Multiply tail

  /** replace_node keeps every node's kind and input count, so it keeps the arities. */
  lemma {:induction false} ReplaceUsesKeepsArities(nodes: seq<Node>, from: nat, to: nat)
    requires Arities(nodes)
    ensures Arities(ReplaceUses(nodes, from, to))
  {
    forall i | 0 <= i < |nodes|
      ensures var r := ReplaceUses(nodes, from, to);
              (r[i].kind in {AddOp, SubtractOp, MultiplyOp, DivideOp, MatMulOp} ==> |r[i].inputs| == 2) &&
              (r[i].kind in {ConvertOp, NegativeOp} ==> |r[i].inputs| == 1) &&
              (r[i].kind == ConstantOp ==> r[i].inputs == [])
    {
      ReplaceUsesKeepsNodes(nodes, from, to, i);
    }
  }

  /** fuseWithSubtract's fold is defined on the Add feeding m, if it applies. */
  predicate TailFoldable(nodes: seq<Node>, m: nat)
    requires Closed(nodes) && Arities(nodes) && m < |nodes|
  {
    (|nodes[m].inputs| > 0 && FusableWithSubtract(nodes, nodes[m].inputs[0]) &&
     IsConstant(nodes, nodes[nodes[m].inputs[0]].inputs[1])) ==> FoldableOperands(nodes, nodes[m].inputs[0])
  }

  /**
   * The graph after the tail of the no-full-path branch: when the swapped Multiply m reads
   * an Add, that Add is fused with a Subtract feeding it, or else replaced by a Subtract of
   * the negated constant; res is newAddOrSubtract.
   */
  ghost predicate SwapTail(O: seq<Node>, N: seq<Node>, m: nat, res: nat)
    requires Closed(O) && Arities(O) && m < |O| && TailFoldable(O, m)
  {
    if |O[m].inputs| == 0 || O[O[m].inputs[0]].kind != AddOp then N == O && res == m
    else
      var a := O[m].inputs[0];
      if FusableWithSubtract(O, a) then N == FusedWithSubtract(O, a) && res == |O| + 1
      else if ReplaceableBySubtract(O, a) then N == ReplacedBySubtract(O, a) && res == |O| + 1
      else N == O && res == a
  }

  /**
   * After fuseWithSubtract on (x - c1) + c2 the Add has no consumer left: each of them reads
   * the new Subtract instead, which computes x minus the folded c1 - c2 (a Constant when c2
   * is one). The inputs are given through Redirect because in a graph with a cycle x may be
   * the Add itself; in an acyclic graph x is never the Add and the Subtract reads [x, c1 - c2].
   */
  lemma {:induction false} FusedIsSubtract(nodes: seq<Node>, op: nat)
    requires Closed(nodes) && Arities(nodes) && op < |nodes| && FusableWithSubtract(nodes, op)
    requires IsConstant(nodes, nodes[op].inputs[1]) ==> FoldableOperands(nodes, op)
    ensures var r := FusedWithSubtract(nodes, op);
            var s := nodes[op].inputs[0]; var c1 := nodes[s].inputs[1]; var c2 := nodes[op].inputs[1];
            && Arities(r) && UseCount(r, op) == 0
            && (forall i :: 0 <= i < |nodes| ==> r[i] == nodes[i].(inputs := Redirect(nodes[i].inputs, op, |nodes| + 1)))
            && r[|nodes| + 1].kind == SubtractOp
            && r[|nodes| + 1].inputs == Redirect([nodes[s].inputs[0], |nodes|], op, |nodes| + 1)
            && (nodes[s].inputs[0] != op ==> r[|nodes| + 1].inputs == [nodes[s].inputs[0], |nodes|])
            && (IsConstant(nodes, c2) ==>
                  r[|nodes|].kind == ConstantOp && r[|nodes|].values == BroadcastSub(nodes[c1].values, nodes[c2].values))
            && (!IsConstant(nodes, c2) ==>
                  r[|nodes|].kind == SubtractOp && r[|nodes|].inputs == Redirect([c1, c2], op, |nodes| + 1))
  {
    var s := nodes[op].inputs[0];
    var folded := FoldSubtract(nodes, nodes[s].inputs[1], nodes[op].inputs[1]);
    var sub := Node(SubtractOp, "", [nodes[s].inputs[0], |nodes|], nodes[op].shape, nodes[op].elementType, []);
    var M := nodes + [folded, sub];
    assert Arities(M) by {
      assert forall i :: 0 <= i < |nodes| ==> M[i] == nodes[i];
    }
    ReplaceUsesKeepsArities(M, op, |nodes| + 1);
    ReplacedAppended(nodes, folded, sub, op);
  }

  /** The no-full-path tail after swapMultiplyAndAdd returned m. */
  method SwappedTail(g: Graph, m: nat) returns (newAddOrSubtract: nat)
    requires g.Valid() && Arities(g.nodes) && m < |g.nodes| && TailFoldable(g.nodes, m)
    modifies g
    ensures g.Valid()
    ensures SwapTail(old(g.nodes), g.nodes, m, newAddOrSubtract)
  {
    if |g.nodes[m].inputs| == 0 || g.nodes[g.nodes[m].inputs[0]].kind != AddOp {
      return m;
    }
    ghost var O := g.nodes;
    newAddOrSubtract := g.nodes[m].inputs[0];
    var a := newAddOrSubtract;
    var subtract := FuseWithSubtract(g, newAddOrSubtract);
    if subtract.Some? {
      newAddOrSubtract := subtract.value;
      FusedIsSubtract(O, a);
    }
    subtract := ReplaceToSubtract(g, newAddOrSubtract);
    if subtract.Some? {
      newAddOrSubtract := subtract.value;
    }
  }

  // ---------------------------------------------------------------------------
  // AddTransformation::transform and the matcher callback

  /**
   * What the NetworkHelper queries answer for one Add: the dequantization on each input,
   * the eltwise base check, getNotEmpty, getMultiplyConstBranch, the Multiply that
   * swapMultiplyAndAdd returns, and whether the empty path's dequantization is low precision.
   */
  datatype Analysis = Analysis(deq0: Dequantization, deq1: Dequantization, eltwiseOk: bool, fullPathIndex: int,
                               multiplyBranch: int, swappedMultiply: nat, emptyPathIsLowPrecision: bool)
  {
    function Deq(i: nat): Dequantization
      requires i < 2
    {
      if i == 0 then deq0 else deq1
    }
  }

  /** A dequantization's data and Convert are producers of the Add, so they come before it. */
  predicate Before(d: Dequantization, op: nat) {
    d.data < op && (d.convert.Some? ==> d.convert.value < op)
  }

  predicate AnalysisFits(nodes: seq<Node>, op: nat, h: Analysis)
    requires Closed(nodes) && Arities(nodes)
  {
    && -1 <= h.fullPathIndex < 2 && Before(h.deq0, op) && Before(h.deq1, op)
    && h.swappedMultiply < |nodes| && TailFoldable(nodes, h.swappedMultiply)
  }

  /** A transformable Add has non-zero scales on both inputs. */
  lemma {:induction false} TransformableScalesNonZero(deq0: Dequantization, deq1: Dequantization,
                                                      zeroOrDenormal: real -> bool, eltwiseOk: bool)
    requires zeroOrDenormal(0.0) && !zeroOrDenormal(1.0)
    requires CanBeTransformed(deq0, deq1, zeroOrDenormal, eltwiseOk)
    ensures deq0.ScaleValue() != 0.0 && deq1.ScaleValue() != 0.0
  {
    if deq0.scale.Some? { assert !zeroOrDenormal(deq0.scale.value); }
    if deq1.scale.Some? { assert !zeroOrDenormal(deq1.scale.value); }
  }

  /** The precision check on the empty path rejects the Add. */
  predicate EmptyPathRejected(h: Analysis, updatePrecisions: bool)
    requires 0 <= h.fullPathIndex < 2
  {
    updatePrecisions && !h.Deq(EmptyPathIndex(h.fullPathIndex)).Empty() && !h.emptyPathIsLowPrecision
  }

  /**
   * transform returns false: the node is not an Add, canBeTransformed fails, neither input
   * has a constant Multiply to swap, or the empty path's precision is rejected.
   */
  predicate Declines(n: Node, h: Analysis, zeroOrDenormal: real -> bool, updatePrecisions: bool)
    requires -1 <= h.fullPathIndex < 2
  {
    || n.kind != AddOp
    || !CanBeTransformed(h.deq0, h.deq1, zeroOrDenormal, h.eltwiseOk)
    || (h.fullPathIndex == -1 && h.multiplyBranch == -1)
    || (h.fullPathIndex != -1 && EmptyPathRejected(h, updatePrecisions))
  }

  /**
   * AddTransformation::transform: returns true exactly when the graph was rewritten: by
   * the swapped-Multiply tail when no input keeps dequantization on a full path, and by the
   * re-association when input fullPathIndex does.
   */
  method Transform(g: Graph, op: nat, h: Analysis, zeroOrDenormal: real -> bool, updatePrecisions: bool,
                   deqPrecision: ElementType) returns (r: bool, newMultiply: nat, newAddOrSubtract: nat)
    requires g.Valid() && Arities(g.nodes) && op < |g.nodes| && AnalysisFits(g.nodes, op, h)
    requires zeroOrDenormal(0.0) && !zeroOrDenormal(1.0)
    modifies g
    ensures g.Valid() && |old(g.nodes)| <= |g.nodes|
    ensures !r <==> Declines(old(g.nodes)[op], h, zeroOrDenormal, updatePrecisions)
    ensures !r ==> g.nodes == old(g.nodes)
    ensures r && h.fullPathIndex == -1 ==>
      newMultiply == h.swappedMultiply && SwapTail(old(g.nodes), g.nodes, newMultiply, newAddOrSubtract)
    ensures r && h.fullPathIndex != -1 ==>
      var full := h.Deq(h.fullPathIndex);
      var empty := h.Deq(EmptyPathIndex(h.fullPathIndex));
      var fullInput := if full.convert.None? then full.data else full.convert.value;
      && full.ScaleValue() != 0.0 && empty.ScaleValue() != 0.0
      && Reassociated(old(g.nodes), g.nodes, op, h.fullPathIndex, empty.data, fullInput,
                      DerivedShift(full.ShiftValue(), full.ScaleValue(), empty.ShiftValue(), empty.ScaleValue()),
                      DerivedScale(full.ScaleValue(), empty.ScaleValue()), empty.ScaleValue(), deqPrecision,
                      newAddOrSubtract, newMultiply)
  {
    newMultiply, newAddOrSubtract := op, op;
    if g.nodes[op].kind != AddOp || !CanBeTransformed(h.deq0, h.deq1, zeroOrDenormal, h.eltwiseOk) {
      return false, newMultiply, newAddOrSubtract;
    }
    TransformableScalesNonZero(h.deq0, h.deq1, zeroOrDenormal, h.eltwiseOk);
    if h.fullPathIndex == -1 {
      if h.multiplyBranch == -1 {
        return false, newMultiply, newAddOrSubtract;
      }
      newMultiply := h.swappedMultiply;
      newAddOrSubtract := SwappedTail(g, newMultiply);
      return true, newMultiply, newAddOrSubtract;
    }
    var emptyPathIndex := EmptyPathIndex(h.fullPathIndex);
    if updatePrecisions && !h.Deq(emptyPathIndex).Empty() && !h.emptyPathIsLowPrecision {
      return false, newMultiply, newAddOrSubtract;
    }
    newAddOrSubtract, newMultiply := RebuildWithFullPath(g, op, h.fullPathIndex, h.Deq(emptyPathIndex),
                                                         h.Deq(h.fullPathIndex), deqPrecision);
    r := true;
  }

  /** The matcher callback: a vetoed Add is left alone, any other goes to transform. */
  method Callback(g: Graph, op: nat, vetoed: bool, h: Analysis, zeroOrDenormal: real -> bool, updatePrecisions: bool,
                  deqPrecision: ElementType) returns (r: bool)
    requires g.Valid() && Arities(g.nodes) && op < |g.nodes| && AnalysisFits(g.nodes, op, h)
    requires zeroOrDenormal(0.0) && !zeroOrDenormal(1.0)
    modifies g
    ensures g.Valid()
    ensures r <==> !vetoed && !Declines(old(g.nodes)[op], h, zeroOrDenormal, updatePrecisions)
    ensures !r ==> g.nodes == old(g.nodes)
  {
    if vetoed {
      return false;
    }
    var newMultiply, newAddOrSubtract;
    r, newMultiply, newAddOrSubtract := Transform(g, op, h, zeroOrDenormal, updatePrecisions, deqPrecision);
  }
}
