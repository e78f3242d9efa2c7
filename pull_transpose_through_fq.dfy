/**
 * PullTransposeThroughFQUp: a Transpose fed by a single-consumer FakeQuantize is moved
 * above the FakeQuantize. Each FakeQuantize input is first padded with leading unit axes
 * up to the data input's rank (an Unsqueeze with axes 0, 1, ...), then transposed with the
 * original permutation; a clone of the FakeQuantize over these inputs replaces the Transpose.
 */
module PullTransposeThroughFQ {
  import opened Wrappers
  import opened ElementTypes
  import opened PartialShapes
  import opened Graphs

  // ---------------------------------------------------------------------------
  // The pattern

  /**
   * Transpose(FakeQuantize(a, b, c, d, e), Constant) where a has a static rank, b..e have
   * static shapes and the FakeQuantize output has exactly one consumer.
   */
  predicate Matches(nodes: seq<Node>, t: nat)
    requires Closed(nodes)
  {
    && t < |nodes| && nodes[t].kind == TransposeOp && |nodes[t].inputs| == 2
    && var fq := nodes[t].inputs[0];
       && nodes[fq].kind == FakeQuantizeOp && |nodes[fq].inputs| == 5
       && nodes[nodes[t].inputs[1]].kind == ConstantOp
       && nodes[nodes[fq].inputs[0]].shape.Ranked?
       && (forall i :: 1 <= i < 5 ==> IsStaticShape(nodes[nodes[fq].inputs[i]].shape))
       && UseCount(nodes, fq) == 1
  }

  function FakeQuantizeOf(nodes: seq<Node>, t: nat): nat
    requires Closed(nodes) && Matches(nodes, t)
  {
    nodes[t].inputs[0]
  }

  function PermNode(nodes: seq<Node>, t: nat): nat
    requires Closed(nodes) && Matches(nodes, t)
  {
    nodes[t].inputs[1]
  }

  /** Input i of the matched FakeQuantize. */
  function FqInput(nodes: seq<Node>, t: nat, i: nat): nat
    requires Closed(nodes) && Matches(nodes, t) && i < 5
  {
    nodes[FakeQuantizeOf(nodes, t)].inputs[i]
  }

  /** The rank of FakeQuantize input i (every input has a static rank). */
  function InputRankOf(nodes: seq<Node>, t: nat, i: nat): nat
    requires Closed(nodes) && Matches(nodes, t) && i < 5
  {
    assert i >= 1 ==> IsStaticShape(nodes[FqInput(nodes, t, i)].shape);
    |nodes[FqInput(nodes, t, i)].shape.dims|
  }

  /** `input_rank`: the rank of the FakeQuantize data input. */
  function DataRank(nodes: seq<Node>, t: nat): nat
    requires Closed(nodes) && Matches(nodes, t)
  {
    InputRankOf(nodes, t, 0)
  }

  /** The permutation constant's values. */
  function PermValues(nodes: seq<Node>, t: nat): seq<real>
    requires Closed(nodes) && Matches(nodes, t)
  {
    nodes[PermNode(nodes, t)].values
  }

  /** The four range inputs each hold one element. */
  predicate AreInputsScalars(nodes: seq<Node>, t: nat)
    requires Closed(nodes) && Matches(nodes, t)
  {
    forall i :: 1 <= i < 5 ==> Product(GetShape(nodes[FqInput(nodes, t, i)].shape).value) == 1
  }

  /** `cast_vector<int64_t>` of one value: truncation toward zero. */
  function CastToInt64(x: real): (n: int)
    ensures x >= 0.0 ==> n as real <= x < n as real + 1.0
    ensures x < 0.0 ==> n as real - 1.0 < x <= n as real
  {
    if x >= 0.0 then x.Floor else -((-x).Floor)
  }

  /** The rewrite goes ahead: scalar ranges, or a permutation that keeps axes 0 and 1 in place. */
  predicate Applies(nodes: seq<Node>, t: nat)
    requires Closed(nodes) && Matches(nodes, t)
    requires !AreInputsScalars(nodes, t) ==> |PermValues(nodes, t)| >= 2
  {
    AreInputsScalars(nodes, t) ||
    (CastToInt64(PermValues(nodes, t)[0]) == 0 && CastToInt64(PermValues(nodes, t)[1]) == 1)
  }

  // ---------------------------------------------------------------------------
  // Rank padding

  /** The axes 0, 1, ..., inputRank - rank - 1 (none when rank >= inputRank). */
  method UnsqueezeAxes(inputRank: int, rank: int) returns (axes: seq<int>)
    ensures |axes| == if inputRank > rank then inputRank - rank else 0
    ensures forall j :: 0 <= j < |axes| ==> axes[j] == j
  {
    axes := [];
    var j := 0;
    while j < inputRank - rank
      invariant 0 <= j && |axes| == j
      invariant inputRank > rank ==> j <= inputRank - rank
      invariant inputRank <= rank ==> j == 0
      invariant forall k :: 0 <= k < j ==> axes[k] == k
    {
      axes := axes + [j];
      j := j + 1;
    }
  }

  /** The Constant holding the axes 0, ..., n - 1. */
  function AxesValues(n: nat): seq<real> {
    seq(n, j requires 0 <= j < n => j as real)
  }

  function Ones(n: nat): seq<Dim> {
    seq(n, j requires 0 <= j < n => Static(1))
  }

  /** Unsqueeze with axes 0..n-1 adds n leading unit dims. */
  function UnsqueezedShape(shape: PartialShape, n: nat): (r: PartialShape)
    requires shape.Ranked?
    ensures r.Ranked? && |r.dims| == n + |shape.dims| && r.dims[n..] == shape.dims
  {
    Ranked(Ones(n) + shape.dims)
  }

  /** Transpose's output shape: the input dims in permutation order, when the permutation fits. */
  function TransposedShape(shape: PartialShape, perm: seq<real>): (r: PartialShape)
    ensures r.Ranked? ==> shape.Ranked? && |r.dims| == |shape.dims| == |perm|
  {
    if shape.Ranked? && |perm| == |shape.dims| &&
       forall i :: 0 <= i < |perm| ==> 0 <= CastToInt64(perm[i]) < |shape.dims|
    then Ranked(seq(|perm|, i requires 0 <= i < |perm| => shape.dims[CastToInt64(perm[i])]))
    else DynamicRank
  }

  /** What the rewrite reads off the match: the FakeQuantize inputs, their shapes, the data rank and the permutation. */
  datatype MatchInfo = MatchInfo(srcs: seq<nat>, shapes: seq<PartialShape>, inputRank: nat, permNode: nat, perm: seq<real>)

  function Info(nodes: seq<Node>, t: nat): (info: MatchInfo)
    requires Closed(nodes) && Matches(nodes, t)
    ensures |info.srcs| == |info.shapes| == 5
  {
    var fq := FakeQuantizeOf(nodes, t);
    MatchInfo(nodes[fq].inputs, seq(5, i requires 0 <= i < 5 => nodes[nodes[fq].inputs[i]].shape),
              DataRank(nodes, t), PermNode(nodes, t), PermValues(nodes, t))
  }

  /** The match's inputs are nodes of N with those shapes, all of static rank. */
  predicate InfoFits(N: seq<Node>, info: MatchInfo) {
    && |info.srcs| == |info.shapes| && info.permNode < |N|
    && forall i :: 0 <= i < |info.srcs| ==> info.srcs[i] < |N| && N[info.srcs[i]].shape == info.shapes[i] && info.shapes[i].Ranked?
  }

  lemma {:induction false} InfoOfMatchFits(nodes: seq<Node>, t: nat)
    requires Closed(nodes) && Matches(nodes, t)
    ensures InfoFits(nodes, Info(nodes, t))
  {
    var fq := FakeQuantizeOf(nodes, t);
    forall i | 0 <= i < 5
      ensures nodes[nodes[fq].inputs[i]].shape.Ranked?
    {
      if i >= 1 {
        assert IsStaticShape(nodes[FqInput(nodes, t, i)].shape);
      }
    }
  }

  /**
   * Node tr of N is the Transpose by the permutation of a FakeQuantize input src of shape
   * srcShape, padded first with an Unsqueeze exactly when its rank is below the data rank.
   */
  ghost predicate PaddedAndTransposed(N: seq<Node>, tr: nat, src: nat, srcShape: PartialShape, info: MatchInfo)
    requires Closed(N)
  {
    && tr < |N| && N[tr].kind == TransposeOp && |N[tr].inputs| == 2 && N[tr].inputs[1] == info.permNode
    && srcShape.Ranked?
    && var p := N[tr].inputs[0];
       && N[tr].shape == TransposedShape(N[p].shape, info.perm)
       && if |srcShape.dims| < info.inputRank then
            && N[p].kind == UnsqueezeOp && |N[p].inputs| == 2 && N[p].inputs[0] == src
            && N[N[p].inputs[1]].kind == ConstantOp
            && N[N[p].inputs[1]].values == AxesValues(info.inputRank - |srcShape.dims|)
            && N[p].shape == UnsqueezedShape(srcShape, info.inputRank - |srcShape.dims|)
          else p == src
  }

  /** After padding, an input of rank at most the data rank has exactly the data rank. */
  lemma {:induction false} PaddedInputHasDataRank(N: seq<Node>, tr: nat, src: nat, srcShape: PartialShape, info: MatchInfo)
    requires Closed(N) && PaddedAndTransposed(N, tr, src, srcShape, info)
    requires src < |N| && N[src].shape == srcShape && |srcShape.dims| <= info.inputRank
    ensures N[N[tr].inputs[0]].shape.Ranked? && |N[N[tr].inputs[0]].shape.dims| == info.inputRank
  {
  }

  /** fqInputs[i] is the new node (at index n0 or later) built for input i of the match. */
  ghost predicate InputsBuilt(N: seq<Node>, fqInputs: seq<nat>, info: MatchInfo, n0: nat, count: nat)
    requires Closed(N) && count <= |info.srcs| == |info.shapes|
  {
    |fqInputs| == count &&
    forall i :: 0 <= i < count ==>
      n0 <= fqInputs[i] && PaddedAndTransposed(N, fqInputs[i], info.srcs[i], info.shapes[i], info)
  }

  function RankOf(ps: PartialShape): nat {
    if ps.Ranked? then |ps.dims| else 0
  }

  /** The positions among the first n inputs whose rank is below the data rank, in order. */
  function PaddedPositions(info: MatchInfo, n: nat): (r: seq<nat>)
    requires n <= |info.shapes|
    ensures |r| <= n
    ensures forall k :: 0 <= k < |r| ==> r[k] < n && RankOf(info.shapes[r[k]]) < info.inputRank
    ensures forall i :: 0 <= i < n && RankOf(info.shapes[i]) < info.inputRank ==> i in r
    ensures forall a, b :: 0 <= a < b < |r| ==> r[a] < r[b]
  {
    if n == 0 then []
    else PaddedPositions(info, n - 1) + (if RankOf(info.shapes[n - 1]) < info.inputRank then [n - 1] else [])
  }

  /** unsqueezes lists, in order, the Unsqueeze read by each padded input's Transpose. */
  ghost predicate UnsqueezesListed(N: seq<Node>, fqInputs: seq<nat>, unsqueezes: seq<nat>, info: MatchInfo, count: nat)
    requires Closed(N) && count <= |info.shapes| && |fqInputs| == count
    requires forall i :: 0 <= i < count ==> fqInputs[i] < |N| && |N[fqInputs[i]].inputs| == 2
  {
    var positions := PaddedPositions(info, count);
    |unsqueezes| == |positions| &&
    forall k :: 0 <= k < |positions| ==> unsqueezes[k] == N[fqInputs[positions[k]]].inputs[0]
  }

  // ---------------------------------------------------------------------------
  // The rewrite

  /** N extends M: what was built in M is still there. */
  lemma {:induction false} BuiltStable(M: seq<Node>, N: seq<Node>, fqInputs: seq<nat>, info: MatchInfo, n0: nat, count: nat)
    requires Closed(M) && Closed(N) && |M| <= |N| && N[..|M|] == M
    requires count <= |info.srcs| == |info.shapes|
    requires InputsBuilt(M, fqInputs, info, n0, count)
    ensures InputsBuilt(N, fqInputs, info, n0, count)
  {
    assert forall k :: 0 <= k < |M| ==> N[k] == M[k];
  }

  /** The listed Unsqueezes stay listed while the Transposes that read them are unchanged. */
  lemma {:induction false} ListedStable(M: seq<Node>, N: seq<Node>, fqInputs: seq<nat>, unsqueezes: seq<nat>, info: MatchInfo, count: nat)
    requires Closed(M) && Closed(N) && count <= |info.shapes| && |fqInputs| == count
    requires forall i :: 0 <= i < count ==> fqInputs[i] < |M| && fqInputs[i] < |N| && N[fqInputs[i]] == M[fqInputs[i]]
    requires forall i :: 0 <= i < count ==> |M[fqInputs[i]].inputs| == 2
    requires UnsqueezesListed(M, fqInputs, unsqueezes, info, count)
    ensures UnsqueezesListed(N, fqInputs, unsqueezes, info, count)
  {
  }

  /** Pads (when needed) and transposes one FakeQuantize input; returns the Transpose and the Unsqueeze. */
  method PadAndTranspose(g: Graph, src: nat, srcShape: PartialShape, info: MatchInfo, avoid: nat)
    returns (tr: nat, unsqueeze: Option<nat>)
    requires g.Valid() && src < |g.nodes| && info.permNode < |g.nodes| && avoid < |g.nodes|
    requires g.nodes[src].shape == srcShape && srcShape.Ranked?
    requires avoid != src && avoid != info.permNode
    modifies g
    ensures g.Valid() && |old(g.nodes)| <= tr < |g.nodes| && g.nodes[..|old(g.nodes)|] == old(g.nodes)
    ensures PaddedAndTransposed(g.nodes, tr, src, srcShape, info)
    ensures unsqueeze.Some? <==> |srcShape.dims| < info.inputRank
    ensures unsqueeze.Some? ==> unsqueeze.value == g.nodes[tr].inputs[0]
    ensures forall k :: |old(g.nodes)| <= k < |g.nodes| ==> avoid !in g.nodes[k].inputs
  {
    var axes := UnsqueezeAxes(info.inputRank, |srcShape.dims|);
    var cur := src;
    unsqueeze := None;
    if axes != [] {
      var axesValues := seq(|axes|, j requires 0 <= j < |axes| => axes[j] as real);
      assert axesValues == AxesValues(info.inputRank - |srcShape.dims|);
      var c := g.AddNode(Node(ConstantOp, "", [], FromShape([|axes|]), I64, axesValues));
      var u := g.AddNode(Node(UnsqueezeOp, "", [src, c], UnsqueezedShape(srcShape, |axes|), g.nodes[src].elementType, []));
      cur := u;
      unsqueeze := Some(u);
    }
    tr := g.AddNode(Node(TransposeOp, "", [cur, info.permNode], TransposedShape(g.nodes[cur].shape, info.perm),
                         g.nodes[cur].elementType, []));
  }

  lemma {:induction false} BuiltExtend(N: seq<Node>, fqInputs: seq<nat>, tr: nat, info: MatchInfo, n0: nat, i: nat)
    requires Closed(N) && i < |info.srcs| == |info.shapes|
    requires InputsBuilt(N, fqInputs, info, n0, i)
    requires n0 <= tr && PaddedAndTransposed(N, tr, info.srcs[i], info.shapes[i], info)
    ensures InputsBuilt(N, fqInputs + [tr], info, n0, i + 1)
  {
  }

  lemma {:induction false} ListedExtend(N: seq<Node>, fqInputs: seq<nat>, unsqueezes: seq<nat>, tr: nat, unsqueeze: Option<nat>,
                     info: MatchInfo, i: nat)
    requires Closed(N) && i < |info.shapes| && |fqInputs| == i
    requires forall k :: 0 <= k < i ==> fqInputs[k] < |N| && |N[fqInputs[k]].inputs| == 2
    requires tr < |N| && |N[tr].inputs| == 2
    requires UnsqueezesListed(N, fqInputs, unsqueezes, info, i)
    requires unsqueeze.Some? <==> RankOf(info.shapes[i]) < info.inputRank
    requires unsqueeze.Some? ==> unsqueeze.value == N[tr].inputs[0]
    ensures UnsqueezesListed(N, fqInputs + [tr], if unsqueeze.Some? then unsqueezes + [unsqueeze.value] else unsqueezes, info, i + 1)
  {
    var positions := PaddedPositions(info, i);
    var positions' := PaddedPositions(info, i + 1);
    var fq' := fqInputs + [tr];
    var us' := if unsqueeze.Some? then unsqueezes + [unsqueeze.value] else unsqueezes;
    assert positions' == positions + (if unsqueeze.Some? then [i] else []);
    assert |us'| == |positions'|;
    forall k | 0 <= k < |positions'|
      ensures us'[k] == N[fq'[positions'[k]]].inputs[0]
    {
      if k < |positions| {
        assert positions'[k] == positions[k] && us'[k] == unsqueezes[k];
        assert fq'[positions[k]] == fqInputs[positions[k]];
      } else {
        assert positions'[k] == i && fq'[i] == tr && us'[k] == unsqueeze.value;
      }
    }
  }

  /** One iteration of the loop over the FakeQuantize inputs: input i is padded and transposed. */
  method BuildInput(g: Graph, info: MatchInfo, avoid: nat, n0: nat, i: nat, fqInputs: seq<nat>, unsqueezes: seq<nat>)
    returns (fqInputs': seq<nat>, unsqueezes': seq<nat>)
    requires i < |info.srcs| && g.Valid() && n0 <= |g.nodes| && InfoFits(g.nodes[..n0], info)
    requires avoid < n0 && avoid != info.permNode && avoid !in info.srcs
    requires InputsBuilt(g.nodes, fqInputs, info, n0, i)
    requires forall k :: 0 <= k < i ==> fqInputs[k] < |g.nodes| && |g.nodes[fqInputs[k]].inputs| == 2
    requires UnsqueezesListed(g.nodes, fqInputs, unsqueezes, info, i)
    requires forall k :: n0 <= k < |g.nodes| ==> avoid !in g.nodes[k].inputs
    modifies g
    ensures g.Valid() && |old(g.nodes)| <= |g.nodes| && g.nodes[..|old(g.nodes)|] == old(g.nodes)
    ensures InputsBuilt(g.nodes, fqInputs', info, n0, i + 1)
    ensures forall k :: 0 <= k < i + 1 ==> fqInputs'[k] < |g.nodes| && |g.nodes[fqInputs'[k]].inputs| == 2
    ensures UnsqueezesListed(g.nodes, fqInputs', unsqueezes', info, i + 1)
    ensures forall k :: n0 <= k < |g.nodes| ==> avoid !in g.nodes[k].inputs
  {
    ghost var before := g.nodes;
    var src := info.srcs[i];
    assert g.nodes[src] == g.nodes[..n0][src];
    var tr, unsqueeze := PadAndTranspose(g, src, info.shapes[i], info, avoid);
    assert forall k :: 0 <= k < |before| ==> g.nodes[k] == before[k];
    BuiltStable(before, g.nodes, fqInputs, info, n0, i);
    ListedStable(before, g.nodes, fqInputs, unsqueezes, info, i);
    BuiltExtend(g.nodes, fqInputs, tr, info, n0, i);
    ListedExtend(g.nodes, fqInputs, unsqueezes, tr, unsqueeze, info, i);
    fqInputs' := fqInputs + [tr];
    unsqueezes' := if unsqueeze.Some? then unsqueezes + [unsqueeze.value] else unsqueezes;
  }

  /** The loop over the FakeQuantize inputs: each is padded and transposed, in order. */
  method BuildInputs(g: Graph, info: MatchInfo, avoid: nat) returns (fqInputs: seq<nat>, unsqueezes: seq<nat>)
    requires g.Valid() && InfoFits(g.nodes, info) && avoid < |g.nodes|
    requires avoid != info.permNode && avoid !in info.srcs
    modifies g
    ensures g.Valid() && |old(g.nodes)| <= |g.nodes| && g.nodes[..|old(g.nodes)|] == old(g.nodes)
    ensures InputsBuilt(g.nodes, fqInputs, info, |old(g.nodes)|, |info.srcs|)
    ensures forall i :: 0 <= i < |info.srcs| ==> fqInputs[i] < |g.nodes| && |g.nodes[fqInputs[i]].inputs| == 2
    ensures UnsqueezesListed(g.nodes, fqInputs, unsqueezes, info, |info.srcs|)
    ensures forall k :: |old(g.nodes)| <= k < |g.nodes| ==> avoid !in g.nodes[k].inputs
  {
    var n0 := |g.nodes|;
    fqInputs := [];
    unsqueezes := [];
    var i := 0;
    while i < |info.srcs|
      invariant 0 <= i <= |info.srcs|
      invariant g.Valid() && n0 <= |g.nodes| && g.nodes[..n0] == old(g.nodes)
      invariant InputsBuilt(g.nodes, fqInputs, info, n0, i)
      invariant forall k :: 0 <= k < i ==> fqInputs[k] < |g.nodes| && |g.nodes[fqInputs[k]].inputs| == 2
      invariant UnsqueezesListed(g.nodes, fqInputs, unsqueezes, info, i)
      invariant forall k :: n0 <= k < |g.nodes| ==> avoid !in g.nodes[k].inputs
    {
      ghost var before := g.nodes;
      fqInputs, unsqueezes := BuildInput(g, info, avoid, n0, i, fqInputs, unsqueezes);
      assert g.nodes[..n0] == before[..n0];
      i := i + 1;
    }
  }

  /** What the callback leaves in N: the new FakeQuantize, its inputs, new_ops and the rewired consumers. */
  ghost predicate Rewritten(O: seq<Node>, N: seq<Node>, t: nat, newOps: seq<nat>)
    requires Closed(O) && Matches(O, t)
  {
    && Closed(N) && |O| <= |N| && |newOps| >= 1
    && var f := newOps[|newOps| - 1];
       var info := Info(O, t);
       && |O| <= f < |N|
       && N[f].kind == FakeQuantizeOp && N[f].name == O[t].name
       && InputsBuilt(N, N[f].inputs, info, |O|, 5)
       && UnsqueezesListed(N, N[f].inputs, newOps[..|newOps| - 1], info, 5)
       && (forall i :: 0 <= i < |O| ==> N[i] == O[i].(inputs := Redirect(O[i].inputs, t, f)))
  }

  /**
   * The matcher callback on a match rooted at Transpose t. When the range inputs are not all
   * scalars the permutation must keep axes 0 and 1; otherwise nothing changes and the result
   * is false. On success new_ops lists the Unsqueezes in input order and then the new
   * FakeQuantize, which carries the Transpose's name and has taken over its consumers.
   */
  method PullTransposeThroughFQUp(g: Graph, t: nat) returns (changed: bool, newOps: seq<nat>)
    requires g.Valid() && Topological(g.nodes) && Matches(g.nodes, t)
    requires !AreInputsScalars(g.nodes, t) ==> |PermValues(g.nodes, t)| >= 2
    modifies g
    ensures changed <==> Applies(old(g.nodes), t)
    ensures !changed ==> g.nodes == old(g.nodes) && newOps == []
    ensures changed ==> Rewritten(old(g.nodes), g.nodes, t, newOps)
  {
    var O := g.nodes;
    var fq := g.nodes[t].inputs[0];
    var permNode := g.nodes[t].inputs[1];
    var perm := g.nodes[permNode].values;
    if !AreInputsScalars(g.nodes, t) {
      if !(CastToInt64(perm[0]) == 0 && CastToInt64(perm[1]) == 1) {
        return false, [];
      }
    }
    var info := Info(O, t);
    InfoOfMatchFits(O, t);
    assert t !in info.srcs by {
      forall i | 0 <= i < 5 ensures info.srcs[i] != t {
        assert info.srcs[i] < fq < t;
      }
    }
    var fqInputs, unsqueezes := BuildInputs(g, info, t);
    newOps := ReplaceWithClone(g, O, t, info, fqInputs, unsqueezes);
    changed := true;
  }

  /** clone_with_new_inputs(fq_inputs) named after t: a new node that reads only new nodes. */
  method AddClone(g: Graph, O: seq<Node>, t: nat, info: MatchInfo, fqInputs: seq<nat>, unsqueezes: seq<nat>)
    returns (f: nat)
    requires Closed(O) && Matches(O, t)
    requires g.Valid() && |O| <= |g.nodes| && g.nodes[..|O|] == O && |info.srcs| == |info.shapes| == 5
    requires InputsBuilt(g.nodes, fqInputs, info, |O|, 5)
    requires forall i :: 0 <= i < 5 ==> fqInputs[i] < |g.nodes| && |g.nodes[fqInputs[i]].inputs| == 2
    requires UnsqueezesListed(g.nodes, fqInputs, unsqueezes, info, 5)
    requires forall k :: |O| <= k < |g.nodes| ==> t !in g.nodes[k].inputs
    modifies g
    ensures g.Valid() && f == |g.nodes| - 1 && f == |old(g.nodes)| && g.nodes[..|O|] == O
    ensures g.nodes[f].kind == FakeQuantizeOp && g.nodes[f].name == O[t].name && g.nodes[f].inputs == fqInputs
    ensures InputsBuilt(g.nodes, fqInputs, info, |O|, 5)
    ensures forall i :: 0 <= i < 5 ==> fqInputs[i] < f && |g.nodes[fqInputs[i]].inputs| == 2
    ensures UnsqueezesListed(g.nodes, fqInputs, unsqueezes, info, 5)
    ensures forall k :: |O| <= k < f ==> t !in g.nodes[k].inputs
  {
    var fq := O[t].inputs[0];
    ghost var M1 := g.nodes;
    f := g.AddNode(O[fq].(inputs := fqInputs, shape := O[t].shape));
    g.SetFriendlyName(f, O[t].name);
    assert forall k :: 0 <= k < |M1| ==> g.nodes[k] == M1[k];
    BuiltStable(M1, g.nodes, fqInputs, info, |O|, 5);
    ListedStable(M1, g.nodes, fqInputs, unsqueezes, info, 5);
    assert g.nodes[..|O|] == M1[..|O|];
  }

  /** Clones the FakeQuantize over the new inputs, names it after t and lets it replace t. */
  method ReplaceWithClone(g: Graph, O: seq<Node>, t: nat, info: MatchInfo, fqInputs: seq<nat>, unsqueezes: seq<nat>)
    returns (newOps: seq<nat>)
    requires Closed(O) && Topological(O) && Matches(O, t) && info == Info(O, t) && t !in info.srcs
    requires g.Valid() && |O| <= |g.nodes| && g.nodes[..|O|] == O
    requires InputsBuilt(g.nodes, fqInputs, info, |O|, 5)
    requires forall i :: 0 <= i < 5 ==> fqInputs[i] < |g.nodes| && |g.nodes[fqInputs[i]].inputs| == 2
    requires UnsqueezesListed(g.nodes, fqInputs, unsqueezes, info, 5)
    requires forall k :: |O| <= k < |g.nodes| ==> t !in g.nodes[k].inputs
    modifies g
    ensures Rewritten(O, g.nodes, t, newOps)
  {
    var f := AddClone(g, O, t, info, fqInputs, unsqueezes);
    ghost var M := g.nodes;
    g.ReplaceNode(t, f);
    newOps := unsqueezes + [f];
    ReplaceWithCloneCompose(O, M, g.nodes, t, f, newOps, fqInputs, unsqueezes, info);
  }

  /** Adding the clone and then replace_node(t, clone) give the rewritten graph. */
  lemma {:induction false} ReplaceWithCloneCompose(O: seq<Node>, M: seq<Node>, N: seq<Node>, t: nat, f: nat, newOps: seq<nat>,
                                fqInputs: seq<nat>, unsqueezes: seq<nat>, info: MatchInfo)
    requires Closed(O) && Matches(O, t) && info == Info(O, t) && t !in info.srcs
    requires Closed(M) && f == |M| - 1 && |O| <= f && M[..|O|] == O
    requires M[f].kind == FakeQuantizeOp && M[f].name == O[t].name && M[f].inputs == fqInputs
    requires InputsBuilt(M, fqInputs, info, |O|, 5)
    requires forall i :: 0 <= i < 5 ==> fqInputs[i] < f && |M[fqInputs[i]].inputs| == 2
    requires UnsqueezesListed(M, fqInputs, unsqueezes, info, 5)
    requires forall k :: |O| <= k < f ==> t !in M[k].inputs
    requires N == ReplaceUses(M, t, f) && newOps == unsqueezes + [f]
    ensures Rewritten(O, N, t, newOps)
  {
    AfterReplace(O, M, N, t, f, fqInputs, info);
    ListedStable(M, N, fqInputs, unsqueezes, info, 5);
    forall i | 0 <= i < |O|
      ensures N[i] == O[i].(inputs := Redirect(O[i].inputs, t, f))
    {
      assert M[i] == O[i];
    }
    RewrittenIntro(O, N, t, newOps, f, fqInputs, unsqueezes, info);
  }

  lemma {:induction false} RewrittenIntro(O: seq<Node>, N: seq<Node>, t: nat, newOps: seq<nat>, f: nat, fqInputs: seq<nat>,
                       unsqueezes: seq<nat>, info: MatchInfo)
    requires Closed(O) && Matches(O, t) && info == Info(O, t)
    requires Closed(N) && |O| <= f < |N| && newOps == unsqueezes + [f]
    requires N[f].kind == FakeQuantizeOp && N[f].name == O[t].name && N[f].inputs == fqInputs
    requires InputsBuilt(N, fqInputs, info, |O|, 5)
    requires forall i :: 0 <= i < 5 ==> fqInputs[i] < |N| && |N[fqInputs[i]].inputs| == 2
    requires UnsqueezesListed(N, fqInputs, unsqueezes, info, 5)
    requires forall i :: 0 <= i < |O| ==> N[i] == O[i].(inputs := Redirect(O[i].inputs, t, f))
    ensures Rewritten(O, N, t, newOps)
  {
    assert newOps[..|newOps| - 1] == unsqueezes;
  }

  /** replace_node(t, f) does not touch the new nodes, none of which reads t. */
  lemma {:induction false} AfterReplace(O: seq<Node>, M: seq<Node>, N: seq<Node>, t: nat, f: nat, fqInputs: seq<nat>, info: MatchInfo)
    requires Closed(M) && t < |O| <= |M| && M[..|O|] == O && O[t].kind == TransposeOp
    requires f == |M| - 1 && |O| <= f && |info.srcs| == |info.shapes| == 5
    requires forall k :: |O| <= k < f ==> t !in M[k].inputs
    requires |fqInputs| == 5 && M[f].inputs == fqInputs && forall i :: 0 <= i < 5 ==> fqInputs[i] < f
    requires t !in info.srcs
    requires InputsBuilt(M, fqInputs, info, |O|, 5)
    requires forall i :: 0 <= i < 5 ==> |M[fqInputs[i]].inputs| == 2
    requires N == ReplaceUses(M, t, f)
    ensures Closed(N)
    ensures forall k :: |O| <= k < |M| ==> N[k] == M[k]
    ensures InputsBuilt(N, fqInputs, info, |O|, 5)
  {
    forall k | |O| <= k < |M|
      ensures N[k] == M[k]
    {
      assert t !in fqInputs;
      ReplaceUsesLeavesNonConsumers(M, t, f, k);
    }
    ReplaceUsesKeepsClosed(M, t, f);
    forall i | 0 <= i < 5
      ensures PaddedAndTransposed(N, fqInputs[i], info.srcs[i], info.shapes[i], info)
    {
      var tr := fqInputs[i];
      var p := M[tr].inputs[0];
      assert N[tr] == M[tr];
      if |info.shapes[i].dims| < info.inputRank {
        ReplaceUsesKeepsNodes(M, t, f, p);
        // The axes Constant was created together with the Unsqueeze, after t.
      }
    }
  }
}
