/**
 * GatherND (opset5): the op declaration with its `batch_dims` attribute, the output-shape
 * rule and the gather it performs over row-major tensors, as pinned down by the reference
 * test vectors.
 */
module GatherND {
  import opened Wrappers
  import opened PartialShapes
  import TypeInfo

  // Error messages
  const InferShapeError := "GatherND: inconsistent data/indices shapes or batch_dims"
  const ShapesError := "GatherND: inconsistent shapes"
  const SizeMismatchError := "GatherND: size mismatch"
  const IndexRangeError := "GatherND: index out of range"

  type Shape = seq<nat>

  // ---------------------------------------------------------------------------
  // Op declaration

  /** A `v5::GatherND` node: its data and indices producers and `m_batch_dims`. */
  datatype GatherNDOp<P> = GatherNDOp(data: P, indices: P, batchDims: nat)

  /** The constructor `GatherND(data, indices, batch_dims = 0)`. */
  function MakeGatherND<P>(data: P, indices: P, batchDims: nat := 0): (op: GatherNDOp<P>)
    ensures Inputs(op) == [data, indices]
    ensures GetBatchDims(op) == batchDims
  {
    GatherNDOp(data, indices, batchDims)
  }

  /** The node's inputs in port order: data first, indices second. */
  function Inputs<P>(op: GatherNDOp<P>): seq<P> {
    [op.data, op.indices]
  }

  /** `get_batch_dims()`. */
  function GetBatchDims<P>(op: GatherNDOp<P>): nat {
    op.batchDims
  }

  lemma {:induction false} BatchDimsDefaultsToZero<P>(data: P, indices: P)
    ensures GetBatchDims(MakeGatherND(data, indices)) == 0
  {
  }

  /** The descriptor declared by `OPENVINO_OP("GatherND", "opset5", op::Op, 5)`, given Op's own. */
  function GatherNDTypeInfo(opTypeInfo: TypeInfo.DiscreteTypeInfo): (t: TypeInfo.DiscreteTypeInfo)
    ensures TypeInfo.IsCastable(t, opTypeInfo)
    ensures TypeInfo.GetVersion(t) == "opset5"
    ensures TypeInfo.ToString(t) == "GatherND_opset5"
  {
    var t := TypeInfo.MakeTypeInfoWithId("GatherND", 5, "opset5", Some(opTypeInfo));
    TypeInfo.ChildCastableToParent(t);
    t
  }

  // ---------------------------------------------------------------------------
  // Shapes

  function Last(s: Shape): nat
    requires |s| >= 1
  {
    s[|s| - 1]
  }

  /** The shape constraints of GatherND: b batch dims shared by data and indices, k <= rank - b. */
  predicate ValidShapes(dataShape: Shape, indicesShape: Shape, batchDims: nat) {
    && |indicesShape| >= 1
    && batchDims < |dataShape|
    && batchDims < |indicesShape|
    && batchDims + Last(indicesShape) <= |dataShape|
    && dataShape[..batchDims] == indicesShape[..batchDims]
  }

  /**
   * The output shape: indices dims (without the last) followed by the data dims not
   * addressed by an index tuple; with batch dims, the batch dims collapse into one.
   */
  function OutputShape(dataShape: Shape, indicesShape: Shape, batchDims: nat): Shape
    requires ValidShapes(dataShape, indicesShape, batchDims)
  {
    var k := Last(indicesShape);
    if batchDims == 0 then
      indicesShape[..|indicesShape| - 1] + dataShape[k..]
    else
      [Product(dataShape[..batchDims])] + indicesShape[batchDims..|indicesShape| - 1] + dataShape[batchDims + k..]
  }

  /** Shape inference: fails on inconsistent shapes, else gives the output shape. */
  function InferShape(dataShape: Shape, indicesShape: Shape, batchDims: nat): (r: Result<Shape>)
    ensures r.Success? <==> ValidShapes(dataShape, indicesShape, batchDims)
    ensures r.Success? ==>
      |r.value| == if batchDims == 0 then |indicesShape| - 1 + |dataShape| - Last(indicesShape)
                   else 1 + (|indicesShape| - 1 - batchDims) + (|dataShape| - batchDims - Last(indicesShape))
  {
    if ValidShapes(dataShape, indicesShape, batchDims) then Success(OutputShape(dataShape, indicesShape, batchDims))
    else Failure(InferShapeError)
  }

  // Derived quantities of a valid (data, indices, batch_dims) triple.

  /** Number of batches: the product of the leading batch dims. */
  function Batches(dataShape: Shape, batchDims: nat): nat
    requires batchDims <= |dataShape|
  {
    Product(dataShape[..batchDims])
  }

  /** Index tuples per batch. */
  function RowsPerBatch(indicesShape: Shape, batchDims: nat): nat
    requires batchDims < |indicesShape|
  {
    Product(indicesShape[batchDims..|indicesShape| - 1])
  }

  /** The data dims an index tuple addresses. */
  function AxisDims(dataShape: Shape, indicesShape: Shape, batchDims: nat): (axis: Shape)
    requires ValidShapes(dataShape, indicesShape, batchDims)
    ensures |axis| == Last(indicesShape)
  {
    dataShape[batchDims..batchDims + Last(indicesShape)]
  }

  /** Elements in one gathered slice. */
  function SliceSize(dataShape: Shape, indicesShape: Shape, batchDims: nat): nat
    requires ValidShapes(dataShape, indicesShape, batchDims)
  {
    Product(dataShape[batchDims + Last(indicesShape)..])
  }

  /** Elements of data in one batch. */
  function BatchSize(dataShape: Shape, batchDims: nat): nat
    requires batchDims <= |dataShape|
  {
    Product(dataShape[batchDims..])
  }

  // ---------------------------------------------------------------------------
  // Indices

  /** An index may count from the end of its axis: -dim <= v < dim. */
  predicate IndexInRange(v: int, dim: nat) {
    -(dim as int) <= v < dim
  }

  function NormalizeIndex(v: int, dim: nat): int {
    if v < 0 then v + dim else v
  }

  /** Chunk i of a sequence made of n chunks of width w (a batch of data or of indices, a tuple). */
  function Chunk<T>(s: seq<T>, n: nat, w: nat, i: nat): (c: seq<T>)
    requires |s| == n * w && i < n
    ensures |c| == w
  {
    RowFits(i, n, w);
    s[i * w .. i * w + w]
  }

  predicate TupleInRange(t: seq<int>, dims: Shape)
    requires |t| == |dims|
  {
    forall p :: 0 <= p < |t| ==> IndexInRange(t[p], dims[p])
  }

  function NormalizeTuple(t: seq<int>, dims: Shape): (n: seq<int>)
    requires |t| == |dims|
    ensures |n| == |t|
  {
    seq(|t|, p requires 0 <= p < |t| => NormalizeIndex(t[p], dims[p]))
  }

  /** Row-major position of a coordinate tuple inside a tensor of the given dims. */
  function Offset(t: seq<int>, dims: Shape): int
    requires |t| == |dims|
  {
    if t == [] then 0 else t[0] * Product(dims[1..]) + Offset(t[1..], dims[1..])
  }

  // ---------------------------------------------------------------------------
  // Arithmetic facts

  lemma {:induction false} ProductAppend(a: Shape, b: Shape)
    ensures Product(a + b) == Product(a) * Product(b)
  {
    if a != [] {
      assert (a + b)[1..] == a[1..] + b;
      ProductAppend(a[1..], b);
      calc {
        Product(a + b);
        a[0] * Product(a[1..] + b);
        a[0] * (Product(a[1..]) * Product(b));
        (a[0] * Product(a[1..])) * Product(b);
        Product(a) * Product(b);
      }
    } else {
      assert a + b == b;
    }
  }

  lemma {:induction false} ProductSplit(s: Shape, i: nat)
    requires i <= |s|
    ensures Product(s) == Product(s[..i]) * Product(s[i..])
  {
    assert s == s[..i] + s[i..];
    ProductAppend(s[..i], s[i..]);
  }

  lemma {:induction false} ProductSingleton(x: nat)
    ensures Product([x]) == x
  {
    assert [x][1..] == [];
  }

  lemma {:induction false} MulStrictBound(a: nat, n: nat, e: nat, s: nat)
    requires a < n && e < s
    ensures a * s + e < n * s
  {
    assert a * s + e < a * s + s == (a + 1) * s;
    assert (a + 1) * s <= n * s;
  }

  lemma {:induction false} RowFits(q: nat, rows: nat, k: nat)
    requires q < rows
    ensures q * k + k <= rows * k
  {
    assert q * k + k == (q + 1) * k;
  }

  lemma {:induction false} DivBound(j: nat, s: nat, n: nat)
    requires j < n * s
    ensures s > 0 && j / s < n && j % s < s
  {
    assert s > 0;
    var q := j / s;
    assert j == q * s + j % s;
  }

  lemma {:induction false} OffsetBound(t: seq<int>, dims: Shape)
    requires |t| == |dims|
    requires forall p :: 0 <= p < |t| ==> 0 <= t[p] < dims[p]
    ensures 0 <= Offset(t, dims) < Product(dims)
  {
    if t != [] {
      OffsetBound(t[1..], dims[1..]);
      MulStrictBound(t[0], dims[0], Offset(t[1..], dims[1..]), Product(dims[1..]));
    }
  }

  lemma {:induction false} NormalizedInBounds(t: seq<int>, dims: Shape)
    requires |t| == |dims| && TupleInRange(t, dims)
    ensures 0 <= Offset(NormalizeTuple(t, dims), dims) < Product(dims)
  {
    OffsetBound(NormalizeTuple(t, dims), dims);
  }

  /** With valid inputs, data holds Batches * (Product(AxisDims) * SliceSize) elements. */
  lemma {:induction false} DataSizeSplit(dataShape: Shape, indicesShape: Shape, batchDims: nat)
    requires ValidShapes(dataShape, indicesShape, batchDims)
    ensures BatchSize(dataShape, batchDims) ==
            Product(AxisDims(dataShape, indicesShape, batchDims)) * SliceSize(dataShape, indicesShape, batchDims)
    ensures Product(dataShape) == Batches(dataShape, batchDims) * BatchSize(dataShape, batchDims)
  {
    var k := Last(indicesShape);
    var tail := dataShape[batchDims..];
    ProductSplit(tail, k);
    assert tail[..k] == dataShape[batchDims..batchDims + k];
    assert tail[k..] == dataShape[batchDims + k..];
    ProductSplit(dataShape, batchDims);
  }

  lemma {:induction false} MulAssoc(a: nat, b: nat, c: nat)
    ensures (a * b) * c == a * (b * c)
  {
  }

  /** The indices hold Batches batches of RowsPerBatch tuples of k entries. */
  lemma {:induction false} IndicesSizeSplit(dataShape: Shape, indicesShape: Shape, batchDims: nat)
    requires ValidShapes(dataShape, indicesShape, batchDims)
    ensures Product(indicesShape) ==
            Batches(dataShape, batchDims) * (RowsPerBatch(indicesShape, batchDims) * Last(indicesShape))
  {
    var r := |indicesShape|;
    var front := indicesShape[..r - 1];
    ProductSplit(front, batchDims);
    assert front[..batchDims] == indicesShape[..batchDims] == dataShape[..batchDims];
    assert front[batchDims..] == indicesShape[batchDims..r - 1];
    ProductSplit(indicesShape, r - 1);
    assert indicesShape[r - 1..] == [Last(indicesShape)];
    ProductSingleton(Last(indicesShape));
    MulAssoc(Batches(dataShape, batchDims), RowsPerBatch(indicesShape, batchDims), Last(indicesShape));
  }

  lemma {:induction false} ConcatUniformLength<T>(xs: seq<seq<T>>, w: nat)
    requires forall i :: 0 <= i < |xs| ==> |xs[i]| == w
    ensures |Concat(xs)| == |xs| * w
  {
    if xs != [] {
      ConcatUniformLength(xs[1..], w);
      assert |xs| * w == w + (|xs| - 1) * w;
    }
  }

  lemma {:induction false} ConcatDropFirst<T>(xs: seq<seq<T>>)
    requires xs != []
    ensures Concat(xs)[|xs[0]|..] == Concat(xs[1..])
    ensures Concat(xs)[..|xs[0]|] == xs[0]
  {
  }

  lemma {:induction false} MulPred(i: nat, w: nat)
    requires i > 0
    ensures i * w == w + (i - 1) * w
  {
  }

  lemma {:induction false} ConcatUniformSlice<T>(xs: seq<seq<T>>, w: nat, i: nat, start: nat)
    requires forall i :: 0 <= i < |xs| ==> |xs[i]| == w
    requires i < |xs| && start == i * w
    ensures start + w <= |Concat(xs)|
    ensures Concat(xs)[start .. start + w] == xs[i]
  {
    ConcatDropFirst(xs);
    var whole := Concat(xs);
    assert whole == xs[0] + Concat(xs[1..]);
    if i > 0 {
      var a := (i - 1) * w;
      MulPred(i, w);
      ConcatUniformSlice(xs[1..], w, i - 1, a);
      assert whole[w..][a .. a + w] == whole[w + a .. w + a + w];
    }
  }

  lemma {:induction false} ConcatUniformChunk<T>(xs: seq<seq<T>>, w: nat, i: nat)
    requires forall i :: 0 <= i < |xs| ==> |xs[i]| == w
    requires i < |xs|
    ensures |Concat(xs)| == |xs| * w
    ensures Chunk(Concat(xs), |xs|, w, i) == xs[i]
  {
    ConcatUniformLength(xs, w);
    ChunkIsSlice(Concat(xs), |xs|, w, i);
    ConcatUniformSlice(xs, w, i, i * w);
  }

  lemma {:induction false} ChunkIsSlice<T>(s: seq<T>, n: nat, w: nat, i: nat)
    requires |s| == n * w && i < n
    ensures i * w + w <= |s| && Chunk(s, n, w, i) == s[i * w .. i * w + w]
  {
    RowFits(i, n, w);
  }

  lemma {:induction false} ConcatMap<T, U>(f: T -> U, xs: seq<seq<T>>)
    ensures MapSeq(f, Concat(xs)) == Concat(seq(|xs|, i requires 0 <= i < |xs| => MapSeq(f, xs[i])))
  {
    if xs != [] {
      ConcatMap(f, xs[1..]);
      var ys := seq(|xs|, i requires 0 <= i < |xs| => MapSeq(f, xs[i]));
      assert ys[1..] == seq(|xs[1..]|, i requires 0 <= i < |xs[1..]| => MapSeq(f, xs[1..][i]));
      assert MapSeq(f, xs[0] + Concat(xs[1..])) == MapSeq(f, xs[0]) + MapSeq(f, Concat(xs[1..]));
    }
  }

  // ---------------------------------------------------------------------------
  // The gather

  function Concat<T>(xs: seq<seq<T>>): seq<T> {
    if xs == [] then [] else xs[0] + Concat(xs[1..])
  }

  function MapSeq<T, U>(f: T -> U, s: seq<T>): (r: seq<U>)
    ensures |r| == |s|
  {
    seq(|s|, i requires 0 <= i < |s| => f(s[i]))
  }

  /**
   * Every index tuple of every batch lies inside the axis dims (negative entries counting
   * from the end); indices are viewed as nb batches of m tuples of k entries.
   */
  predicate IndicesInRange(dataShape: Shape, indices: seq<int>, indicesShape: Shape, batchDims: nat)
    requires ValidShapes(dataShape, indicesShape, batchDims)
    requires |indices| == Product(indicesShape)
  {
    var nb := Batches(dataShape, batchDims);
    var m := RowsPerBatch(indicesShape, batchDims);
    var k := Last(indicesShape);
    IndicesSizeSplit(dataShape, indicesShape, batchDims);
    forall b, q :: 0 <= b < nb && 0 <= q < m ==>
      TupleInRange(Chunk(Chunk(indices, nb, m * k, b), m, k, q), AxisDims(dataShape, indicesShape, batchDims))
  }

  /** Everything the reference gather needs: valid shapes, matching sizes, indices in range. */
  predicate ValidInputs<T>(data: seq<T>, dataShape: Shape, indices: seq<int>, indicesShape: Shape, batchDims: nat) {
    && ValidShapes(dataShape, indicesShape, batchDims)
    && |data| == Product(dataShape)
    && |indices| == Product(indicesShape)
    && IndicesInRange(dataShape, indices, indicesShape, batchDims)
  }

  /** Position of the slice an index tuple selects, in units of whole slices. */
  function TupleOffset(t: seq<int>, axis: Shape): (off: nat)
    requires |t| == |axis| && TupleInRange(t, axis)
    ensures off < Product(axis)
  {
    NormalizedInBounds(t, axis);
    Offset(NormalizeTuple(t, axis), axis)
  }

  /** One batch: the data slices the m tuples select, in tuple order. */
  function GatherBatch<T>(batchData: seq<T>, axis: Shape, s: nat, batchIndices: seq<int>, m: nat): (out: seq<T>)
    requires |batchData| == Product(axis) * s
    requires |batchIndices| == m * |axis|
    requires forall q :: 0 <= q < m ==> TupleInRange(Chunk(batchIndices, m, |axis|, q), axis)
    ensures |out| == m * s
  {
    var slices := seq(m, q requires 0 <= q < m =>
      Chunk(batchData, Product(axis), s, TupleOffset(Chunk(batchIndices, m, |axis|, q), axis)));
    ConcatUniformLength(slices, s);
    Concat(slices)
  }

  /** GatherND: batches are gathered independently and concatenated. */
  function Gather<T>(data: seq<T>, dataShape: Shape, indices: seq<int>, indicesShape: Shape, batchDims: nat): (out: seq<T>)
    requires ValidInputs(data, dataShape, indices, indicesShape, batchDims)
    ensures |out| == Product(OutputShape(dataShape, indicesShape, batchDims))
  {
    var nb := Batches(dataShape, batchDims);
    var m := RowsPerBatch(indicesShape, batchDims);
    var k := Last(indicesShape);
    var s := SliceSize(dataShape, indicesShape, batchDims);
    var axis := AxisDims(dataShape, indicesShape, batchDims);
    var bs := BatchSize(dataShape, batchDims);
    IndicesSizeSplit(dataShape, indicesShape, batchDims);
    DataSizeSplit(dataShape, indicesShape, batchDims);
    var batches := seq(nb, b requires 0 <= b < nb =>
      GatherBatch(Chunk(data, nb, bs, b), axis, s, Chunk(indices, nb, m * k, b), m));
    ConcatUniformLength(batches, m * s);
    OutputSize(dataShape, indicesShape, batchDims);
    Concat(batches)
  }

  /** The output holds Batches * RowsPerBatch * SliceSize elements. */
  lemma {:induction false} OutputSize(dataShape: Shape, indicesShape: Shape, batchDims: nat)
    requires ValidShapes(dataShape, indicesShape, batchDims)
    ensures Product(OutputShape(dataShape, indicesShape, batchDims)) ==
            Batches(dataShape, batchDims) * (RowsPerBatch(indicesShape, batchDims) * SliceSize(dataShape, indicesShape, batchDims))
  {
    var r := |indicesShape|;
    var k := Last(indicesShape);
    var nb := Batches(dataShape, batchDims);
    var m := RowsPerBatch(indicesShape, batchDims);
    var s := SliceSize(dataShape, indicesShape, batchDims);
    var middle := indicesShape[batchDims..r - 1];
    var tail := dataShape[batchDims + k..];
    assert Product(middle) == m;
    assert Product(tail) == s;
    if batchDims == 0 {
      assert dataShape[..0] == [];
      assert nb == 1;
      assert indicesShape[..r - 1] == middle;
      assert dataShape[k..] == tail;
      ProductAppend(middle, tail);
    } else {
      ProductAppend([nb] + middle, tail);
      ProductAppend([nb], middle);
      ProductSingleton(nb);
      MulAssoc(nb, m, s);
    }
  }

  /** Evaluation with its error path: invalid shapes, mismatched sizes or an out-of-range index fail. */
  function Evaluate<T>(data: seq<T>, dataShape: Shape, indices: seq<int>, indicesShape: Shape, batchDims: nat): (r: Result<seq<T>>)
    ensures r.Success? <==> ValidInputs(data, dataShape, indices, indicesShape, batchDims)
    ensures r.Success? ==> |r.value| == Product(OutputShape(dataShape, indicesShape, batchDims))
  {
    if !ValidShapes(dataShape, indicesShape, batchDims) then Failure(ShapesError)
    else if |data| != Product(dataShape) || |indices| != Product(indicesShape) then Failure(SizeMismatchError)
    else if !IndicesInRange(dataShape, indices, indicesShape, batchDims) then Failure(IndexRangeError)
    else Success(Gather(data, dataShape, indices, indicesShape, batchDims))
  }

  // ---------------------------------------------------------------------------
  // Properties of the gather

  /** The q-th slice of a batch is the data slice its (normalised) index tuple addresses. */
  lemma {:induction false} GatherBatchSlice<T>(batchData: seq<T>, axis: Shape, s: nat, batchIndices: seq<int>, m: nat, q: nat)
    requires |batchData| == Product(axis) * s
    requires |batchIndices| == m * |axis|
    requires forall q :: 0 <= q < m ==> TupleInRange(Chunk(batchIndices, m, |axis|, q), axis)
    requires q < m
    ensures Chunk(GatherBatch(batchData, axis, s, batchIndices, m), m, s, q) ==
            Chunk(batchData, Product(axis), s, TupleOffset(Chunk(batchIndices, m, |axis|, q), axis))
  {
    var slices := seq(m, q requires 0 <= q < m =>
      Chunk(batchData, Product(axis), s, TupleOffset(Chunk(batchIndices, m, |axis|, q), axis)));
    ConcatUniformChunk(slices, s, q);
  }

  /** Batch b of data: BatchSize elements, a whole number of slices. */
  function BatchData<T>(data: seq<T>, dataShape: Shape, indicesShape: Shape, batchDims: nat, b: nat): (r: seq<T>)
    requires ValidShapes(dataShape, indicesShape, batchDims) && |data| == Product(dataShape)
    requires b < Batches(dataShape, batchDims)
    ensures |r| == BatchSize(dataShape, batchDims)
    ensures |r| == Product(AxisDims(dataShape, indicesShape, batchDims)) * SliceSize(dataShape, indicesShape, batchDims)
  {
    DataSizeSplit(dataShape, indicesShape, batchDims);
    Chunk(data, Batches(dataShape, batchDims), BatchSize(dataShape, batchDims), b)
  }

  /** Batch b of indices: RowsPerBatch tuples, each in range when all indices are. */
  function BatchIndices(dataShape: Shape, indices: seq<int>, indicesShape: Shape, batchDims: nat, b: nat): (r: seq<int>)
    requires ValidShapes(dataShape, indicesShape, batchDims) && |indices| == Product(indicesShape)
    requires b < Batches(dataShape, batchDims)
    ensures |r| == RowsPerBatch(indicesShape, batchDims) * |AxisDims(dataShape, indicesShape, batchDims)|
    ensures IndicesInRange(dataShape, indices, indicesShape, batchDims) ==>
      forall q :: 0 <= q < RowsPerBatch(indicesShape, batchDims) ==>
        TupleInRange(Chunk(r, RowsPerBatch(indicesShape, batchDims), Last(indicesShape), q), AxisDims(dataShape, indicesShape, batchDims))
  {
    IndicesSizeSplit(dataShape, indicesShape, batchDims);
    Chunk(indices, Batches(dataShape, batchDims), RowsPerBatch(indicesShape, batchDims) * Last(indicesShape), b)
  }

  /** Batch b of the output: RowsPerBatch slices. */
  function OutputBatch<T>(data: seq<T>, dataShape: Shape, indices: seq<int>, indicesShape: Shape, batchDims: nat, b: nat): (r: seq<T>)
    requires ValidInputs(data, dataShape, indices, indicesShape, batchDims)
    requires b < Batches(dataShape, batchDims)
    ensures |r| == RowsPerBatch(indicesShape, batchDims) * SliceSize(dataShape, indicesShape, batchDims)
  {
    OutputSize(dataShape, indicesShape, batchDims);
    Chunk(Gather(data, dataShape, indices, indicesShape, batchDims), Batches(dataShape, batchDims),
          RowsPerBatch(indicesShape, batchDims) * SliceSize(dataShape, indicesShape, batchDims), b)
  }

  /** Batch b of the output is the gather of batch b of data by batch b of indices. */
  lemma {:induction false} GatherBatchOf<T>(data: seq<T>, dataShape: Shape, indices: seq<int>, indicesShape: Shape, batchDims: nat, b: nat)
    requires ValidInputs(data, dataShape, indices, indicesShape, batchDims)
    requires b < Batches(dataShape, batchDims)
    ensures OutputBatch(data, dataShape, indices, indicesShape, batchDims, b) ==
            GatherBatch(BatchData(data, dataShape, indicesShape, batchDims, b), AxisDims(dataShape, indicesShape, batchDims),
                        SliceSize(dataShape, indicesShape, batchDims), BatchIndices(dataShape, indices, indicesShape, batchDims, b),
                        RowsPerBatch(indicesShape, batchDims))
  {
    var nb := Batches(dataShape, batchDims);
    var m := RowsPerBatch(indicesShape, batchDims);
    var k := Last(indicesShape);
    var s := SliceSize(dataShape, indicesShape, batchDims);
    var axis := AxisDims(dataShape, indicesShape, batchDims);
    var bs := BatchSize(dataShape, batchDims);
    IndicesSizeSplit(dataShape, indicesShape, batchDims);
    DataSizeSplit(dataShape, indicesShape, batchDims);
    var batches := seq(nb, b requires 0 <= b < nb =>
      GatherBatch(Chunk(data, nb, bs, b), axis, s, Chunk(indices, nb, m * k, b), m));
    ConcatUniformChunk(batches, m * s, b);
  }

  /**
   * Output slice (b, q) -- tuple q of batch b -- is the data slice that tuple addresses inside
   * batch b of data: the row-major gather the reference vectors describe.
   */
  lemma {:induction false} GatherSliceAt<T>(data: seq<T>, dataShape: Shape, indices: seq<int>, indicesShape: Shape, batchDims: nat, b: nat, q: nat)
    requires ValidInputs(data, dataShape, indices, indicesShape, batchDims)
    requires b < Batches(dataShape, batchDims) && q < RowsPerBatch(indicesShape, batchDims)
    ensures (var m := RowsPerBatch(indicesShape, batchDims);
             var s := SliceSize(dataShape, indicesShape, batchDims);
             var axis := AxisDims(dataShape, indicesShape, batchDims);
             var tuple := Chunk(BatchIndices(dataShape, indices, indicesShape, batchDims, b), m, Last(indicesShape), q);
             Chunk(OutputBatch(data, dataShape, indices, indicesShape, batchDims, b), m, s, q) ==
             Chunk(BatchData(data, dataShape, indicesShape, batchDims, b), Product(axis), s, TupleOffset(tuple, axis)))
  {
    var bd := BatchData(data, dataShape, indicesShape, batchDims, b);
    var bi := BatchIndices(dataShape, indices, indicesShape, batchDims, b);
    GatherBatchOf(data, dataShape, indices, indicesShape, batchDims, b);
    GatherBatchSlice(bd, AxisDims(dataShape, indicesShape, batchDims), SliceSize(dataShape, indicesShape, batchDims),
                     bi, RowsPerBatch(indicesShape, batchDims), q);
  }

  lemma {:induction false} ChunkWhole<T>(s: seq<T>, w: nat)
    requires |s| == 1 * w
    ensures Chunk(s, 1, w, 0) == s
  {
  }

  /**
   * batch_dims means independent problems: batch b of the output is GatherND with
   * batch_dims = 0 on batch b of data and batch b of indices.
   */
  lemma {:induction false} BatchesAreIndependent<T>(data: seq<T>, dataShape: Shape, indices: seq<int>, indicesShape: Shape, batchDims: nat, b: nat)
    requires ValidInputs(data, dataShape, indices, indicesShape, batchDims)
    requires b < Batches(dataShape, batchDims)
    ensures (var batchData := BatchData(data, dataShape, indicesShape, batchDims, b);
             var batchIndices := BatchIndices(dataShape, indices, indicesShape, batchDims, b);
             && ValidInputs(batchData, dataShape[batchDims..], batchIndices, indicesShape[batchDims..], 0)
             && OutputBatch(data, dataShape, indices, indicesShape, batchDims, b) ==
                Gather(batchData, dataShape[batchDims..], batchIndices, indicesShape[batchDims..], 0))
  {
    var nb := Batches(dataShape, batchDims);
    var m := RowsPerBatch(indicesShape, batchDims);
    var k := Last(indicesShape);
    var s := SliceSize(dataShape, indicesShape, batchDims);
    var axis := AxisDims(dataShape, indicesShape, batchDims);
    var bs := BatchSize(dataShape, batchDims);
    IndicesSizeSplit(dataShape, indicesShape, batchDims);
    DataSizeSplit(dataShape, indicesShape, batchDims);
    var batchData := Chunk(data, nb, bs, b);
    var batchIndices := Chunk(indices, nb, m * k, b);
    var dS := dataShape[batchDims..];
    var iS := indicesShape[batchDims..];
    // The sub-problem has the same derived quantities, and a single batch.
    assert Last(iS) == k;
    assert dS[..0] == [];
    assert Batches(dS, 0) == 1;
    assert iS[0..|iS| - 1] == indicesShape[batchDims..|indicesShape| - 1];
    assert RowsPerBatch(iS, 0) == m;
    assert AxisDims(dS, iS, 0) == axis;
    assert dS[k..] == dataShape[batchDims + k..];
    assert SliceSize(dS, iS, 0) == s;
    assert BatchSize(dS, 0) == bs by {
      assert dS[0..] == dS;
    }
    assert ValidShapes(dS, iS, 0);
    IndicesSizeSplit(dS, iS, 0);
    assert |batchIndices| == Product(iS) by {
      assert Product(iS) == 1 * (m * k);
    }
    assert |batchData| == Product(dS) by {
      assert dS[0..] == dS;
    }
    ChunkWhole(batchData, bs);
    ChunkWhole(batchIndices, m * k);
    assert IndicesInRange(dS, batchIndices, iS, 0) by {
      forall b', q | 0 <= b' < 1 && 0 <= q < m
        ensures TupleInRange(Chunk(Chunk(batchIndices, 1, m * k, b'), m, k, q), axis)
      {
        assert b' == 0;
      }
    }
    GatherBatchOf(data, dataShape, indices, indicesShape, batchDims, b);
    var one := GatherBatch(batchData, axis, s, batchIndices, m);
    var batches := seq(1, b' requires 0 <= b' < 1 =>
      GatherBatch(Chunk(batchData, 1, bs, b'), axis, s, Chunk(batchIndices, 1, m * k, b'), m));
    assert batches == [one];
    assert Concat([one]) == one;
  }

  /** Negative indices count from the end of their axis: an index and its normalised form agree. */
  lemma {:induction false} NegativeIndexNormalises(v: int, dim: nat)
    requires IndexInRange(v, dim) && v < 0
    ensures IndexInRange(v + dim, dim) && NormalizeIndex(v, dim) == NormalizeIndex(v + dim, dim) == v + dim
  {
  }

  /** The gather depends on the indices only through their normalised tuples. */
  lemma {:induction false} GatherDependsOnNormalisedIndices<T>(data: seq<T>, dataShape: Shape, indices: seq<int>, indices': seq<int>,
                                             indicesShape: Shape, batchDims: nat)
    requires ValidInputs(data, dataShape, indices, indicesShape, batchDims)
    requires ValidInputs(data, dataShape, indices', indicesShape, batchDims)
    requires (IndicesSizeSplit(dataShape, indicesShape, batchDims);
              var nb := Batches(dataShape, batchDims);
              var m := RowsPerBatch(indicesShape, batchDims);
              var k := Last(indicesShape);
              var axis := AxisDims(dataShape, indicesShape, batchDims);
              forall b, q :: 0 <= b < nb && 0 <= q < m ==>
              NormalizeTuple(Chunk(Chunk(indices, nb, m * k, b), m, k, q), axis) ==
              NormalizeTuple(Chunk(Chunk(indices', nb, m * k, b), m, k, q), axis))
    ensures Gather(data, dataShape, indices, indicesShape, batchDims) == Gather(data, dataShape, indices', indicesShape, batchDims)
  {
    var nb := Batches(dataShape, batchDims);
    var m := RowsPerBatch(indicesShape, batchDims);
    var k := Last(indicesShape);
    var s := SliceSize(dataShape, indicesShape, batchDims);
    var axis := AxisDims(dataShape, indicesShape, batchDims);
    var bs := BatchSize(dataShape, batchDims);
    IndicesSizeSplit(dataShape, indicesShape, batchDims);
    DataSizeSplit(dataShape, indicesShape, batchDims);
    var batches := seq(nb, b requires 0 <= b < nb =>
      GatherBatch(Chunk(data, nb, bs, b), axis, s, Chunk(indices, nb, m * k, b), m));
    var batches' := seq(nb, b requires 0 <= b < nb =>
      GatherBatch(Chunk(data, nb, bs, b), axis, s, Chunk(indices', nb, m * k, b), m));
    forall b | 0 <= b < nb
      ensures batches[b] == batches'[b]
    {
      var bd := Chunk(data, nb, bs, b);
      var bi := Chunk(indices, nb, m * k, b);
      var bi' := Chunk(indices', nb, m * k, b);
      var slices := seq(m, q requires 0 <= q < m => Chunk(bd, Product(axis), s, TupleOffset(Chunk(bi, m, k, q), axis)));
      var slices' := seq(m, q requires 0 <= q < m => Chunk(bd, Product(axis), s, TupleOffset(Chunk(bi', m, k, q), axis)));
      assert slices == slices';
    }
    assert batches == batches';
  }

  lemma {:induction false} ChunkOfMap<T, U>(f: T -> U, s: seq<T>, n: nat, w: nat, i: nat)
    requires |s| == n * w && i < n
    ensures Chunk(MapSeq(f, s), n, w, i) == MapSeq(f, Chunk(s, n, w, i))
  {
    RowFits(i, n, w);
    SliceOfMap(f, s, i * w, i * w + w);
  }

  lemma {:induction false} SliceOfMap<T, U>(f: T -> U, s: seq<T>, lo: nat, hi: nat)
    requires lo <= hi <= |s|
    ensures MapSeq(f, s)[lo..hi] == MapSeq(f, s[lo..hi])
  {
  }

  lemma {:induction false} GatherBatchCommutesWithMap<T, U>(f: T -> U, batchData: seq<T>, axis: Shape, s: nat, batchIndices: seq<int>, m: nat)
    requires |batchData| == Product(axis) * s
    requires |batchIndices| == m * |axis|
    requires forall q :: 0 <= q < m ==> TupleInRange(Chunk(batchIndices, m, |axis|, q), axis)
    ensures GatherBatch(MapSeq(f, batchData), axis, s, batchIndices, m) == MapSeq(f, GatherBatch(batchData, axis, s, batchIndices, m))
  {
    var fbd := MapSeq(f, batchData);
    var slices := seq(m, q requires 0 <= q < m =>
      Chunk(batchData, Product(axis), s, TupleOffset(Chunk(batchIndices, m, |axis|, q), axis)));
    var fslices := seq(m, q requires 0 <= q < m =>
      Chunk(fbd, Product(axis), s, TupleOffset(Chunk(batchIndices, m, |axis|, q), axis)));
    forall q | 0 <= q < m
      ensures fslices[q] == MapSeq(f, slices[q])
    {
      ChunkOfMap(f, batchData, Product(axis), s, TupleOffset(Chunk(batchIndices, m, |axis|, q), axis));
    }
    ConcatMap(f, slices);
    assert fslices == seq(|slices|, i requires 0 <= i < |slices| => MapSeq(f, slices[i]));
  }

  /** GatherND moves elements without looking at them: it commutes with any elementwise map. */
  lemma {:induction false} GatherCommutesWithMap<T, U>(f: T -> U, data: seq<T>, dataShape: Shape, indices: seq<int>, indicesShape: Shape, batchDims: nat)
    requires ValidInputs(data, dataShape, indices, indicesShape, batchDims)
    ensures ValidInputs(MapSeq(f, data), dataShape, indices, indicesShape, batchDims)
    ensures Gather(MapSeq(f, data), dataShape, indices, indicesShape, batchDims) ==
            MapSeq(f, Gather(data, dataShape, indices, indicesShape, batchDims))
  {
    var nb := Batches(dataShape, batchDims);
    var m := RowsPerBatch(indicesShape, batchDims);
    var k := Last(indicesShape);
    var s := SliceSize(dataShape, indicesShape, batchDims);
    var axis := AxisDims(dataShape, indicesShape, batchDims);
    var bs := BatchSize(dataShape, batchDims);
    IndicesSizeSplit(dataShape, indicesShape, batchDims);
    DataSizeSplit(dataShape, indicesShape, batchDims);
    var fdata := MapSeq(f, data);
    var batches := seq(nb, b requires 0 <= b < nb =>
      GatherBatch(Chunk(data, nb, bs, b), axis, s, Chunk(indices, nb, m * k, b), m));
    var fbatches := seq(nb, b requires 0 <= b < nb =>
      GatherBatch(Chunk(fdata, nb, bs, b), axis, s, Chunk(indices, nb, m * k, b), m));
    forall b | 0 <= b < nb
      ensures fbatches[b] == MapSeq(f, batches[b])
    {
      ChunkOfMap(f, data, nb, bs, b);
      GatherBatchCommutesWithMap(f, Chunk(data, nb, bs, b), axis, s, Chunk(indices, nb, m * k, b), m);
    }
    ConcatMap(f, batches);
    assert fbatches == seq(|batches|, i requires 0 <= i < |batches| => MapSeq(f, batches[i]));
  }

  // ---------------------------------------------------------------------------
  // Reference vectors: output shapes

  lemma {:induction false} ProductPair(a: nat, b: nat)
    ensures Product([a, b]) == a * b
  {
    assert [a, b][1..] == [b];
    ProductSingleton(b);
  }

  lemma {:induction false} ShapeSingleIndices()
    ensures OutputShape([3, 3], [2], 0) == []
  {
  }

  lemma {:induction false} ShapeSliceFrom2d()
    ensures OutputShape([2, 2], [2, 1], 0) == [2, 2]
  {
  }

  lemma {:induction false} ShapeBatch2dFrom3d()
    ensures OutputShape([2, 2, 2], [2, 1, 1], 0) == [2, 1, 2, 2]
  {
  }

  lemma {:induction false} ShapeBatchDims1()
    ensures OutputShape([2, 3, 4], [2, 1], 1) == [2, 4]
  {
    var dS: Shape := [2, 3, 4];
    assert dS[..1] == [2];
    ProductSingleton(2);
  }

  lemma {:induction false} ShapeBatchDims2()
    ensures OutputShape([2, 3, 4, 2], [2, 3, 3, 2], 2) == [6, 3]
  {
    var dS: Shape := [2, 3, 4, 2];
    assert dS[..2] == [2, 3];
    ProductPair(2, 3);
  }

  lemma {:induction false} ShapeBatchDims2LeadDims()
    ensures OutputShape([2, 3, 4], [2, 3, 1, 1], 2) == [6, 1]
  {
    var dS: Shape := [2, 3, 4];
    assert dS[..2] == [2, 3];
    ProductPair(2, 3);
  }

  // ---------------------------------------------------------------------------
  // Reference vectors: "gather_nd_batch_1d_from_3d" and its "_negative" twin

  lemma {:induction false} NegativeVectorTuple(neg: seq<int>, pos: seq<int>, q: nat)
    requires neg == [0, -1, -1, 0, 0, 0, 1, 1] && pos == [0, 1, 1, 0, 0, 0, 1, 1] && q < 4
    ensures TupleInRange(Chunk(neg, 4, 2, q), [2, 2]) && TupleInRange(Chunk(pos, 4, 2, q), [2, 2])
    ensures NormalizeTuple(Chunk(neg, 4, 2, q), [2, 2]) == NormalizeTuple(Chunk(pos, 4, 2, q), [2, 2])
  {
    var a := Chunk(neg, 4, 2, q);
    var b := Chunk(pos, 4, 2, q);
    assert a == [neg[2 * q], neg[2 * q + 1]];
    assert b == [pos[2 * q], pos[2 * q + 1]];
  }

  lemma {:induction false} NegativeVectorShapes(sh: Shape)
    requires sh == [2, 2, 2]
    ensures ValidShapes(sh, sh, 0) && Batches(sh, 0) == 1 && RowsPerBatch(sh, 0) == 4 && Last(sh) == 2
    ensures Product(sh) == 8 && AxisDims(sh, sh, 0) == [2, 2]
  {
    assert sh[..0] == [];
    assert sh[0..2] == [2, 2];
    ProductPair(2, 2);
    assert sh[1..] == [2, 2];
  }

  /** The negative-index vector and its non-negative twin gather the same elements from any data. */
  lemma {:induction false} NegativeVectorMatchesPositive<T>(data: seq<T>)
    requires |data| == 8
    ensures ValidInputs(data, [2, 2, 2], [0, -1, -1, 0, 0, 0, 1, 1], [2, 2, 2], 0)
    ensures ValidInputs(data, [2, 2, 2], [0, 1, 1, 0, 0, 0, 1, 1], [2, 2, 2], 0)
    ensures Gather(data, [2, 2, 2], [0, -1, -1, 0, 0, 0, 1, 1], [2, 2, 2], 0) ==
            Gather(data, [2, 2, 2], [0, 1, 1, 0, 0, 0, 1, 1], [2, 2, 2], 0)
  {
    var sh: Shape := [2, 2, 2];
    var neg: seq<int> := [0, -1, -1, 0, 0, 0, 1, 1];
    var pos: seq<int> := [0, 1, 1, 0, 0, 0, 1, 1];
    NegativeVectorShapes(sh);
    assert Chunk(neg, 1, 8, 0) == neg;
    assert Chunk(pos, 1, 8, 0) == pos;
    forall b, q | 0 <= b < 1 && 0 <= q < 4
      ensures TupleInRange(Chunk(Chunk(neg, 1, 8, b), 4, 2, q), [2, 2]) && TupleInRange(Chunk(Chunk(pos, 1, 8, b), 4, 2, q), [2, 2])
      ensures NormalizeTuple(Chunk(Chunk(neg, 1, 8, b), 4, 2, q), [2, 2]) == NormalizeTuple(Chunk(Chunk(pos, 1, 8, b), 4, 2, q), [2, 2])
    {
      NegativeVectorTuple(neg, pos, q);
    }
    GatherDependsOnNormalisedIndices(data, sh, neg, pos, sh, 0);
  }
}
