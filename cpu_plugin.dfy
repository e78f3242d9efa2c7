/**
 * Decision logic of the CPU plugin: the element-type conversion table, the PassConfig
 * callbacks that keep nodes the plugin executes natively (true means "skip this node"),
 * the accepted input precisions, the config lookup and the QueryNetwork support set.
 */
module CpuPlugin {
  import opened Wrappers
  import opened ElementTypes
  import opened PartialShapes
  import TypeInfo

  // Error messages
  const NoDimensionOneError := "max sequence length: shape has no dimension 1"
  const MissingSequenceLengthsError := "missing sequence_lengths input"
  const NotNgraphModelError := "CPU plug-in doesn't support not ngraph-based model!"

  // ---------------------------------------------------------------------------
  // Precision conversion table

  type Conversion = (ElementType, ElementType)

  /** The conversions applied on every machine. */
  function BaseConversions(): seq<Conversion> {
    [(I64, I32), (U64, I32), (I16, I32), (U16, I32), (U32, I32),
     (F64, F32), (F16, F32), (Boolean, U8), (I4, I8), (U4, U8)]
  }

  /** The element types the plugin computes in. */
  predicate NativeType(t: ElementType) {
    t == I32 || t == F32 || t == U8 || t == I8
  }

  /** The table handed to ConvertPrecision; bf16 is lowered to f32 unless AVX-512 core is available. */
  method GetConvertPrecisions(avx512Core: bool) returns (table: seq<Conversion>)
    ensures |table| == if avx512Core then 10 else 11
    ensures table[..10] == BaseConversions()
    ensures !avx512Core ==> table[10] == (BF16, F32)
    ensures forall i :: 0 <= i < |table| ==> NativeType(table[i].1)
    ensures forall i, j :: 0 <= i < j < |table| ==> table[i].0 != table[j].0
    ensures forall i, j :: 0 <= i < |table| && 0 <= j < |table| ==> table[i].1 != table[j].0
    ensures (exists i :: 0 <= i < |table| && table[i].0 == BF16) <==> !avx512Core
  {
    table := BaseConversions();
    if !avx512Core {
      table := table + [(BF16, F32)];
    }
    assert table[..10] == BaseConversions();
  }

  // ---------------------------------------------------------------------------
  // PassConfig callbacks on single nodes

  /**
   * ConvertSpaceToDepth / ConvertDepthToSpace: keep the node when its input has rank <= 5
   * and the same rank as its output. The output shape is read only when the first test holds.
   */
  function SpaceDepthVeto(input: PartialShape, output: PartialShape): (r: Result<bool>)
    ensures r.Success? <==> IsStaticShape(input) && (|input.dims| <= 5 ==> IsStaticShape(output))
    ensures r.Success? ==> (r.value <==> |input.dims| <= 5 && |input.dims| == |output.dims|)
  {
    var inShape :- GetShape(input);
    if |inShape| <= 5 then
      var outShape :- GetShape(output);
      Success(|inShape| == |outShape|)
    else
      Success(false)
  }

  /** ConvertBatchToSpace / ConvertSpaceToBatch: keep the node when the input rank is 4 or 5. */
  function BatchSpaceVeto(input: PartialShape): (r: Result<bool>)
    ensures r.Success? <==> input.Ranked?
    ensures r.Success? ==> (r.value <==> |input.dims| == 4 || |input.dims| == 5)
  {
    var rank :- RankLength(input);
    Success(rank == 4 || rank == 5)
  }

  /** SoftmaxDecomposition: keep the node when the input rank is at most 5. */
  function SoftmaxVeto(input: PartialShape): (r: Result<bool>)
    ensures r.Success? <==> input.Ranked?
    ensures r.Success? ==> (r.value <==> |input.dims| <= 5)
  {
    var rank :- RankLength(input);
    Success(rank <= 5)
  }

  /** UnrollTensorIterator: runs only on nodes whose runtime info carries the key "UNROLL_TI". */
  function UnrollTensorIteratorVeto(rtInfoKeys: set<string>): (skip: bool)
    ensures skip <==> "UNROLL_TI" !in rtInfoKeys
  {
    !("UNROLL_TI" in rtInfoKeys)
  }

  datatype CellKind = RNNCell | GRUCell | LSTMCellV4 | LSTMCellV1 | NotACell

  /** An op as far as the cell-support test looks at it. */
  datatype Cell = Cell(kind: CellKind, clip: real, activations: seq<string>)

  /** The activations a cell kind has by default. */
  function DefaultActivations(kind: CellKind): seq<string> {
    match kind
    case RNNCell => ["tanh"]
    case GRUCell => ["sigmoid", "tanh"]
    case LSTMCellV4 => ["sigmoid", "tanh", "tanh"]
    case LSTMCellV1 => ["sigmoid", "tanh", "tanh"]
    case NotACell => []
  }

  /**
   * A cell the plugin runs natively: no clipping and, except for RNN cells, the default
   * activations (the RNN cell's activations are not inspected).
   */
  predicate IsCellPrimitiveSupported(c: Cell) {
    match c.kind
    case RNNCell => c.clip == 0.0
    case GRUCell => c.clip == 0.0 && c.activations == ["sigmoid", "tanh"]
    case LSTMCellV4 => c.clip == 0.0 && c.activations == ["sigmoid", "tanh", "tanh"]
    case LSTMCellV1 => c.clip == 0.0 && c.activations == ["sigmoid", "tanh", "tanh"]
    case NotACell => false
  }

  lemma {:induction false} CellSupportedIffUnclippedDefault(c: Cell)
    ensures IsCellPrimitiveSupported(c) <==>
            c.kind != NotACell && c.clip == 0.0 && (c.kind == RNNCell || c.activations == DefaultActivations(c.kind))
  {
  }

  /** Number of natively supported cells in a TensorIterator body. */
  function SupportedCellCount(body: seq<Cell>): (n: nat)
    ensures n <= |body|
  {
    if body == [] then 0
    else SupportedCellCount(body[..|body| - 1]) + (if IsCellPrimitiveSupported(body[|body| - 1]) then 1 else 0)
  }

  /** Positions of the natively supported cells in a body. */
  function SupportedCells(body: seq<Cell>): set<nat> {
    set i: nat | i < |body| && IsCellPrimitiveSupported(body[i])
  }

  /** The count is the number of body positions whose cell is supported. */
  lemma {:induction false} SupportedCellCountCounts(body: seq<Cell>)
    ensures SupportedCellCount(body) == |SupportedCells(body)|
  {
    if body != [] {
      var p := body[..|body| - 1];
      SupportedCellCountCounts(p);
      if IsCellPrimitiveSupported(body[|body| - 1]) {
        assert SupportedCells(body) == SupportedCells(p) + {|body| - 1};
      } else {
        assert SupportedCells(body) == SupportedCells(p);
      }
    }
  }

  datatype TiCandidate = TensorIterator(body: seq<Cell>) | NotATensorIterator

  /**
   * ConvertTensorIteratorTo{RNN,GRU,LSTM}Sequence: a TensorIterator is converted only when its
   * body holds exactly one supported cell; every other node is skipped.
   */
  method TensorIteratorVeto(node: TiCandidate) returns (skip: bool)
    ensures skip <==> !node.TensorIterator? || SupportedCellCount(node.body) != 1
  {
    if !node.TensorIterator? {
      return true;
    }
    var body := node.body;
    var countRnn := 0;
    var i := 0;
    while i < |body|
      invariant 0 <= i <= |body|
      invariant countRnn == SupportedCellCount(body[..i])
    {
      assert body[..i + 1][..i] == body[..i];
      countRnn := countRnn + if IsCellPrimitiveSupported(body[i]) then 1 else 0;
      i := i + 1;
    }
    assert body[..i] == body;
    return countRnn != 1;
  }

  datatype SequenceKind = RNNSequence | GRUSequence | LSTMSequence | NotASequence

  /** An op as far as the sequence-support test looks at it; inputs are its producers. */
  datatype SequenceNode<P> = SequenceNode(kind: SequenceKind, data: PartialShape, clip: real,
                                          activations: seq<string>, inputs: seq<P>)

  /** The input holding sequence_lengths: 2 for RNN and GRU sequences, 3 for LSTM ones. */
  function SequenceLengthInput(kind: SequenceKind): nat {
    if kind == LSTMSequence then 3 else 2
  }

  /** The data's rank is known, above 1, and its dim 1 (the sequence length) is not static. */
  predicate DynamicSequenceLength<P>(node: SequenceNode<P>) {
    node.data.Ranked? && |node.data.dims| > 1 && !node.data.dims[1].Static?
  }

  /** `get_shape().at(1)` succeeds: the data shape is fully static with rank at least 2. */
  predicate SequenceLengthReadable<P>(node: SequenceNode<P>) {
    IsStaticShape(node.data) && |node.data.dims| >= 2
  }

  /**
   * The `&&` chain of a sequence kind reaches its is_seq_len_provided call: no clipping and,
   * except for RNN sequences, the default activations.
   */
  predicate ReachesSequenceLengths<P>(node: SequenceNode<P>) {
    && node.kind != NotASequence && node.clip == 0.0
    && (node.kind == RNNSequence || node.activations == DefaultActivations(CellOf(node.kind)))
  }

  /**
   * Convert{RNN,GRU,LSTM}SequenceToTensorIterator: keep a sequence the plugin supports --
   * static max sequence length, no clipping, default activations and no sequence_lengths
   * input that actually varies. `seqLenProvided` stands for is_seq_len_provided. Reading
   * the data shape raises an error when it is not fully static or has rank below 2, and
   * reading the sequence_lengths input raises one when the node has no such input; the
   * clip and activation tests come first and, when they fail, that input is not read.
   */
  function SequenceVeto<P>(node: SequenceNode<P>, seqLenProvided: (P, nat) -> bool): (r: Result<bool>)
    ensures DynamicSequenceLength(node) ==> r == Success(false)
    ensures r == Success(true) <==>
      && SequenceLengthReadable(node) && ReachesSequenceLengths(node)
      && SequenceLengthInput(node.kind) < |node.inputs|
      && !seqLenProvided(node.inputs[SequenceLengthInput(node.kind)], node.data.dims[1].length)
    ensures r.Failure? <==>
      && !DynamicSequenceLength(node)
      && (!SequenceLengthReadable(node) || (ReachesSequenceLengths(node) && SequenceLengthInput(node.kind) >= |node.inputs|))
  {
    if DynamicSequenceLength(node) then Success(false)
    else
      var shape :- GetShape(node.data);
      if |shape| < 2 then Failure(NoDimensionOneError)
      else
        var maxSeqLen := shape[1];
        var lenInput := SequenceLengthInput(node.kind);
        match node.kind
        case NotASequence => Success(false)
        case RNNSequence =>
          if node.clip != 0.0 then Success(false)
          else if lenInput < |node.inputs| then Success(!seqLenProvided(node.inputs[lenInput], maxSeqLen))
          else Failure(MissingSequenceLengthsError)
        case GRUSequence =>
          if !(node.clip == 0.0 && node.activations == ["sigmoid", "tanh"]) then Success(false)
          else if lenInput < |node.inputs| then Success(!seqLenProvided(node.inputs[lenInput], maxSeqLen))
          else Failure(MissingSequenceLengthsError)
        case LSTMSequence =>
          if !(node.clip == 0.0 && node.activations == ["sigmoid", "tanh", "tanh"]) then Success(false)
          else if lenInput < |node.inputs| then Success(!seqLenProvided(node.inputs[lenInput], maxSeqLen))
          else Failure(MissingSequenceLengthsError)
  }

  /** The cell kind a sequence kind iterates. */
  function CellOf(kind: SequenceKind): CellKind {
    match kind
    case RNNSequence => RNNCell
    case GRUSequence => GRUCell
    case LSTMSequence => LSTMCellV4
    case NotASequence => NotACell
  }

  /**
   * ConvertNMSToNMSIEInternal: skip the node when every consumer of every output is a
   * Result. `consumers[i]` are the type descriptors of the ops reading output i.
   */
  method NmsVeto(consumers: seq<seq<TypeInfo.DiscreteTypeInfo>>, resultType: TypeInfo.DiscreteTypeInfo) returns (skip: bool)
    ensures skip <==> forall i, j :: 0 <= i < |consumers| && 0 <= j < |consumers[i]| ==> TypeInfo.SameType(consumers[i][j], resultType)
  {
    var i := 0;
    while i < |consumers|
      invariant 0 <= i <= |consumers|
      invariant forall i', j :: 0 <= i' < i && 0 <= j < |consumers[i']| ==> TypeInfo.SameType(consumers[i'][j], resultType)
    {
      var outputs := consumers[i];
      var j := 0;
      while j < |outputs|
        invariant 0 <= j <= |outputs|
        invariant forall j' :: 0 <= j' < j ==> TypeInfo.SameType(outputs[j'], resultType)
      {
        if !TypeInfo.SameType(outputs[j], resultType) {
          return false;
        }
        j := j + 1;
      }
      i := i + 1;
    }
    return true;
  }

  // ---------------------------------------------------------------------------
  // Accepted input precisions (LoadExeNetworkImpl)

  /** InferenceEngine::Precision. */
  datatype Precision =
    | UNSPECIFIED | MIXED | FP32 | FP16 | BF16P | FP64 | Q78 | I16P | U4P | U8P | I4P | I8P
    | U16P | I32P | U32P | I64P | U64P | BIN | BOOL | CUSTOM

  predicate AcceptedInputPrecision(p: Precision) {
    p in {FP32, I32P, U16P, I16P, I8P, U8P, BF16P, BOOL, I64P, U64P}
  }

  function PrecisionName(p: Precision): string {
    match p
    case UNSPECIFIED => "UNSPECIFIED" case MIXED => "MIXED" case FP32 => "FP32" case FP16 => "FP16"
    case BF16P => "BF16" case FP64 => "FP64" case Q78 => "Q78" case I16P => "I16" case U4P => "U4"
    case U8P => "U8" case I4P => "I4" case I8P => "I8" case U16P => "U16" case I32P => "I32"
    case U32P => "U32" case I64P => "I64" case U64P => "U64" case BIN => "BIN" case BOOL => "BOOL"
    case CUSTOM => "CUSTOM"
  }

  /**
   * The error for an input precision the plugin rejects. The "NotImplemented: " prefix
   * stands for the exception type IE_THROW(NotImplemented) raises; the rest is the message.
   */
  function UnsupportedInputMessage(p: Precision): string {
    "NotImplemented: Input image format " + PrecisionName(p) + " is not supported yet..."
  }

  /**
   * The check on the network inputs (in the input map's order): the first input whose
   * precision is not one of the ten accepted ones raises NotImplemented.
   */
  method CheckInputPrecisions(inputs: seq<(string, Precision)>) returns (r: Result<()>)
    ensures r.Success? <==> forall i :: 0 <= i < |inputs| ==> AcceptedInputPrecision(inputs[i].1)
    ensures r.Failure? ==> exists i :: 0 <= i < |inputs| && !AcceptedInputPrecision(inputs[i].1) &&
                                       (forall j :: 0 <= j < i ==> AcceptedInputPrecision(inputs[j].1)) &&
                                       r.error == UnsupportedInputMessage(inputs[i].1)
  {
    var i := 0;
    while i < |inputs|
      invariant 0 <= i <= |inputs|
      invariant forall j :: 0 <= j < i ==> AcceptedInputPrecision(inputs[j].1)
    {
      var precision := inputs[i].1;
      if !AcceptedInputPrecision(precision) {
        return Failure(UnsupportedInputMessage(precision));
      }
      i := i + 1;
    }
    return Success(());
  }

  // ---------------------------------------------------------------------------
  // GetConfig

  /** `GetConfig(name)`: the stored value, or an error for an unknown key. */
  function GetConfig(config: map<string, string>, name: string): (r: Result<string>)
    ensures r.Success? <==> name in config
    ensures r.Success? ==> r.value == config[name]
    ensures r.Failure? ==> r.error == "Unsupported config key " + name
  {
    if name in config then Success(config[name]) else Failure("Unsupported config key " + name)
  }

  // ---------------------------------------------------------------------------
  // QueryNetwork

  datatype OpClass = ConstantOp | ParameterOp | ResultOp | OtherOp

  /**
   * An op of the original function: its friendly name, its class, and its producers and
   * consumers as positions in the function's op list. `consumers` is in target-input order.
   */
  datatype OriginalOp = OriginalOp(name: string, cls: OpClass, inputs: seq<nat>, consumers: seq<nat>)

  /** An op of the transformed clone: the original names fused into it and whether the plugin can create it. */
  datatype TransformedOp = TransformedOp(fusedNames: seq<string>, creatable: bool)

  predicate IsConstantOrParameter(c: OpClass) {
    c == ConstantOp || c == ParameterOp
  }

  /** Edges stay inside the op list; a Constant or Parameter has a consumer and a Result a producer. */
  predicate WellFormedOp(ops: seq<OriginalOp>, op: OriginalOp) {
    && (forall k :: 0 <= k < |op.inputs| ==> op.inputs[k] < |ops|)
    && (forall k :: 0 <= k < |op.consumers| ==> op.consumers[k] < |ops|)
    && (IsConstantOrParameter(op.cls) ==> |op.consumers| >= 1)
    && (op.cls == ResultOp ==> |op.inputs| >= 1)
  }

  predicate WellFormed(ops: seq<OriginalOp>) {
    forall i :: 0 <= i < |ops| ==> WellFormedOp(ops, ops[i])
  }

  function OriginalNames(ops: seq<OriginalOp>): set<string> {
    set i | 0 <= i < |ops| :: ops[i].name
  }

  /** Names of Constants, Parameters and Results: the only ones the ordered walk adds or drops. */
  function BoundaryNames(ops: seq<OriginalOp>): set<string> {
    set i | 0 <= i < |ops| && ops[i].cls != OtherOp :: ops[i].name
  }

  /** Some transformed op with the given creatability carries the name among its fused names. */
  predicate MarkedBy(tops: seq<TransformedOp>, name: string, creatable: bool) {
    exists i :: 0 <= i < |tops| && tops[i].creatable == creatable && name in tops[i].fusedNames
  }

  /** Phase one: original names fused only into creatable ops (one uncreatable op vetoes a name). */
  function FusedSupported(original: set<string>, tops: seq<TransformedOp>): set<string> {
    set n | n in original && MarkedBy(tops, n, true) && !MarkedBy(tops, n, false)
  }

  lemma {:induction false} MarkedByPrefix(tops: seq<TransformedOp>, i: nat, name: string, creatable: bool)
    requires i < |tops|
    ensures MarkedBy(tops[..i + 1], name, creatable) <==>
            MarkedBy(tops[..i], name, creatable) || (tops[i].creatable == creatable && name in tops[i].fusedNames)
  {
    if MarkedBy(tops[..i + 1], name, creatable) {
      var k :| 0 <= k < i + 1 && tops[..i + 1][k].creatable == creatable && name in tops[..i + 1][k].fusedNames;
      if k < i {
        assert tops[..i][k] == tops[k];
      }
    }
    if MarkedBy(tops[..i], name, creatable) {
      var k :| 0 <= k < i && tops[..i][k].creatable == creatable && name in tops[..i][k].fusedNames;
      assert tops[..i + 1][k] == tops[k];
    }
    if tops[i].creatable == creatable && name in tops[i].fusedNames {
      assert tops[..i + 1][i] == tops[i];
    }
  }

  /** The names of an op list, collected one op at a time. */
  method CollectNames(ops: seq<OriginalOp>) returns (names: set<string>)
    ensures names == OriginalNames(ops)
  {
    names := {};
    var i := 0;
    while i < |ops|
      invariant 0 <= i <= |ops|
      invariant names == set k | 0 <= k < i :: ops[k].name
    {
      names := names + {ops[i].name};
      i := i + 1;
    }
  }

  /** Names of original ops marked by the first i transformed ops. */
  function MarkedNames(original: set<string>, tops: seq<TransformedOp>, creatable: bool): set<string> {
    set n | n in original && MarkedBy(tops, n, creatable)
  }

  lemma {:induction false} MarkedNamesGrow(original: set<string>, tops: seq<TransformedOp>, i: nat, creatable: bool)
    requires i < |tops|
    ensures MarkedNames(original, tops[..i + 1], creatable) ==
            MarkedNames(original, tops[..i], creatable) +
            (if tops[i].creatable == creatable then set n | n in original && n in tops[i].fusedNames else {})
  {
    forall n
      ensures MarkedBy(tops[..i + 1], n, creatable) <==>
              MarkedBy(tops[..i], n, creatable) || (tops[i].creatable == creatable && n in tops[i].fusedNames)
    {
      MarkedByPrefix(tops, i, n, creatable);
    }
  }

  /** The inner loop: each fused name that is an original name goes to one of the two sets. */
  method AddFusedNames(original: set<string>, op: TransformedOp, supported: set<string>, unsupported: set<string>)
    returns (supported': set<string>, unsupported': set<string>)
    ensures supported' == supported + (if op.creatable then set n | n in original && n in op.fusedNames else {})
    ensures unsupported' == unsupported + (if op.creatable then {} else set n | n in original && n in op.fusedNames)
  {
    supported', unsupported' := supported, unsupported;
    var names := op.fusedNames;
    var j := 0;
    while j < |names|
      invariant 0 <= j <= |names|
      invariant supported' == supported + (if op.creatable then set n | n in original && n in names[..j] else {})
      invariant unsupported' == unsupported + (if op.creatable then {} else set n | n in original && n in names[..j])
    {
      assert names[..j + 1] == names[..j] + [names[j]];
      if names[j] in original {
        if op.creatable {
          supported' := supported' + {names[j]};
        } else {
          unsupported' := unsupported' + {names[j]};
        }
      }
      j := j + 1;
    }
    assert names[..j] == names;
  }

  /** The erase loop, one unsupported name at a time. */
  method EraseAll(supported: set<string>, unsupported: set<string>) returns (s: set<string>)
    ensures s == supported - unsupported
  {
    s := supported;
    var rest := unsupported;
    while rest != {}
      invariant rest <= unsupported
      invariant s == supported - (unsupported - rest)
      decreases |rest|
    {
      var name :| name in rest;
      s := s - {name};
      rest := rest - {name};
    }
  }

  /** Phase one of QueryNetwork: the supported and unsupported sets, then the erase loop. */
  method SupportedFusedNames(original: set<string>, tops: seq<TransformedOp>) returns (supported: set<string>)
    ensures supported == FusedSupported(original, tops)
  {
    supported := {};
    var unsupported: set<string> := {};
    var i := 0;
    while i < |tops|
      invariant 0 <= i <= |tops|
      invariant supported == MarkedNames(original, tops[..i], true)
      invariant unsupported == MarkedNames(original, tops[..i], false)
    {
      supported, unsupported := AddFusedNames(original, tops[i], supported, unsupported);
      MarkedNamesGrow(original, tops, i, true);
      MarkedNamesGrow(original, tops, i, false);
      i := i + 1;
    }
    assert tops[..i] == tops;
    supported := EraseAll(supported, unsupported);
  }

  /** Names of the Constant and Parameter producers of an op. */
  function ConstantAndParameterInputs(ops: seq<OriginalOp>, op: OriginalOp): set<string>
    requires WellFormedOp(ops, op)
  {
    set k | 0 <= k < |op.inputs| && IsConstantOrParameter(ops[op.inputs[k]].cls) :: ops[op.inputs[k]].name
  }

  /** Names of the Result consumers of an op. */
  function ResultConsumers(ops: seq<OriginalOp>, op: OriginalOp): set<string>
    requires WellFormedOp(ops, op)
  {
    set k | 0 <= k < |op.consumers| && ops[op.consumers[k]].cls == ResultOp :: ops[op.consumers[k]].name
  }

  /**
   * One step of the ordered walk at op i: a supported op pulls in its Constant and Parameter
   * producers and its Result consumers; then a Constant or Parameter whose first consumer is
   * not supported, or a Result whose producer is not supported, is dropped.
   */
  function Step(ops: seq<OriginalOp>, supported: set<string>, i: nat): set<string>
    requires WellFormed(ops) && i < |ops|
  {
    Prune(ops, ops[i], Grow(ops, ops[i], supported))
  }

  /** First half of a step: a supported op pulls in its Constant/Parameter producers and Result consumers. */
  function Grow(ops: seq<OriginalOp>, op: OriginalOp, supported: set<string>): set<string>
    requires WellFormedOp(ops, op)
  {
    if op.name in supported then supported + ConstantAndParameterInputs(ops, op) + ResultConsumers(ops, op) else supported
  }

  /** Second half of a step: a boundary op whose neighbour is not supported is dropped. */
  function Prune(ops: seq<OriginalOp>, op: OriginalOp, grown: set<string>): set<string>
    requires WellFormedOp(ops, op)
  {
    if IsConstantOrParameter(op.cls) then
      (if ops[op.consumers[0]].name !in grown then grown - {op.name} else grown)
    else if op.cls == ResultOp then
      (if ops[op.inputs[0]].name !in grown then grown - {op.name} else grown)
    else
      grown
  }


  /** The walk over ops i.. in order. */
  function WalkFrom(ops: seq<OriginalOp>, supported: set<string>, i: nat): set<string>
    requires WellFormed(ops) && i <= |ops|
    decreases |ops| - i
  {
    if i == |ops| then supported else WalkFrom(ops, Step(ops, supported, i), i + 1)
  }

  method AddConstantAndParameterInputs(ops: seq<OriginalOp>, op: OriginalOp, supported: set<string>) returns (s: set<string>)
    requires WellFormedOp(ops, op)
    ensures s == supported + ConstantAndParameterInputs(ops, op)
  {
    s := supported;
    var k := 0;
    while k < |op.inputs|
      invariant 0 <= k <= |op.inputs|
      invariant s == supported + set k' | 0 <= k' < k && IsConstantOrParameter(ops[op.inputs[k']].cls) :: ops[op.inputs[k']].name
    {
      var producer := ops[op.inputs[k]];
      if IsConstantOrParameter(producer.cls) {
        s := s + {producer.name};
      }
      k := k + 1;
    }
  }

  method AddResultConsumers(ops: seq<OriginalOp>, op: OriginalOp, supported: set<string>) returns (s: set<string>)
    requires WellFormedOp(ops, op)
    ensures s == supported + ResultConsumers(ops, op)
  {
    s := supported;
    var k := 0;
    while k < |op.consumers|
      invariant 0 <= k <= |op.consumers|
      invariant s == supported + set k' | 0 <= k' < k && ops[op.consumers[k']].cls == ResultOp :: ops[op.consumers[k']].name
    {
      var consumer := ops[op.consumers[k]];
      if consumer.cls == ResultOp {
        s := s + {consumer.name};
      }
      k := k + 1;
    }
  }

  /**
   * QueryNetwork: the names reported as supported. `network` is the original function (None
   * for a model without one) and `transformed` the op list of its transformed clone.
   */
  method QueryNetwork(network: Option<seq<OriginalOp>>, transformed: seq<TransformedOp>) returns (r: Result<set<string>>)
    requires network.Some? ==> WellFormed(network.value)
    ensures r.Failure? <==> network.None?
    ensures r.Success? ==> r.value == WalkFrom(network.value, FusedSupported(OriginalNames(network.value), transformed), 0)
  {
    if network.None? {
      return Failure(NotNgraphModelError);
    }
    var ops := network.value;
    var originalOps := CollectNames(ops);
    var supported := SupportedFusedNames(originalOps, transformed);
    ghost var start := supported;
    var i := 0;
    while i < |ops|
      invariant 0 <= i <= |ops|
      invariant WalkFrom(ops, supported, i) == WalkFrom(ops, start, 0)
    {
      var op := ops[i];
      ghost var before := supported;
      if op.name in supported {
        supported := AddConstantAndParameterInputs(ops, op, supported);
        supported := AddResultConsumers(ops, op, supported);
      }
      assert supported == Grow(ops, op, before);
      ghost var grown := supported;
      if IsConstantOrParameter(op.cls) {
        if ops[op.consumers[0]].name !in supported {
          supported := supported - {op.name};
        }
      } else if op.cls == ResultOp {
        if ops[op.inputs[0]].name !in supported {
          supported := supported - {op.name};
        }
      }
      assert supported == Prune(ops, op, grown);
      assert WalkFrom(ops, before, i) == WalkFrom(ops, supported, i + 1);
      i := i + 1;
    }
    return Success(supported);
  }

  // Properties of the walk

  /** A name that is not a Constant, Parameter or Result name keeps its phase-one membership. */
  lemma {:induction false} WalkKeepsOtherNames(ops: seq<OriginalOp>, supported: set<string>, i: nat, name: string)
    requires WellFormed(ops) && i <= |ops|
    requires name !in BoundaryNames(ops)
    ensures name in WalkFrom(ops, supported, i) <==> name in supported
    decreases |ops| - i
  {
    if i < |ops| {
      var op := ops[i];
      var grown := if op.name in supported then supported + ConstantAndParameterInputs(ops, op) + ResultConsumers(ops, op) else supported;
      assert name !in ConstantAndParameterInputs(ops, op);
      assert name !in ResultConsumers(ops, op);
      assert name in Step(ops, supported, i) <==> name in supported;
      WalkKeepsOtherNames(ops, Step(ops, supported, i), i + 1, name);
    }
  }

  /** The walk adds only names of the function's own ops. */
  lemma {:induction false} WalkStaysWithinNames(ops: seq<OriginalOp>, supported: set<string>, i: nat)
    requires WellFormed(ops) && i <= |ops|
    requires supported <= OriginalNames(ops)
    ensures WalkFrom(ops, supported, i) <= OriginalNames(ops)
    decreases |ops| - i
  {
    if i < |ops| {
      var op := ops[i];
      assert ConstantAndParameterInputs(ops, op) <= OriginalNames(ops);
      assert ResultConsumers(ops, op) <= OriginalNames(ops);
      WalkStaysWithinNames(ops, Step(ops, supported, i), i + 1);
    }
  }

  /** Only names of original ops are reported. */
  lemma {:induction false} QueryReportsOnlyOriginalNames(ops: seq<OriginalOp>, transformed: seq<TransformedOp>)
    requires WellFormed(ops)
    ensures WalkFrom(ops, FusedSupported(OriginalNames(ops), transformed), 0) <= OriginalNames(ops)
  {
    WalkStaysWithinNames(ops, FusedSupported(OriginalNames(ops), transformed), 0);
  }

  /**
   * A name fused into an op the plugin cannot create is never reported (unless it names a
   * Constant, Parameter or Result, which the walk decides on its own).
   */
  lemma {:induction false} UnsupportedNameNeverReported(ops: seq<OriginalOp>, transformed: seq<TransformedOp>, name: string)
    requires WellFormed(ops)
    requires MarkedBy(transformed, name, false) && name !in BoundaryNames(ops)
    ensures name !in WalkFrom(ops, FusedSupported(OriginalNames(ops), transformed), 0)
  {
    WalkKeepsOtherNames(ops, FusedSupported(OriginalNames(ops), transformed), 0, name);
  }

  /** A name of an ordinary op is reported exactly when phase one supports it. */
  lemma {:induction false} OrdinaryNameReportedIffFusedSupported(ops: seq<OriginalOp>, transformed: seq<TransformedOp>, name: string)
    requires WellFormed(ops)
    requires name in OriginalNames(ops) && name !in BoundaryNames(ops)
    ensures name in WalkFrom(ops, FusedSupported(OriginalNames(ops), transformed), 0) <==>
            MarkedBy(transformed, name, true) && !MarkedBy(transformed, name, false)
  {
    WalkKeepsOtherNames(ops, FusedSupported(OriginalNames(ops), transformed), 0, name);
  }

  /** Right after its step, a Result is kept only if its producer is supported. */
  lemma {:induction false} StepKeepsResultOnlyWithProducer(ops: seq<OriginalOp>, supported: set<string>, i: nat)
    requires WellFormed(ops) && i < |ops| && ops[i].cls == ResultOp
    ensures ops[i].name in Step(ops, supported, i) ==> ops[ops[i].inputs[0]].name in Step(ops, supported, i)
  {
  }

  /** Right after its step, a Constant or Parameter is kept only if its first consumer is supported. */
  lemma {:induction false} StepKeepsConstantOnlyWithConsumer(ops: seq<OriginalOp>, supported: set<string>, i: nat)
    requires WellFormed(ops) && i < |ops| && IsConstantOrParameter(ops[i].cls)
    ensures ops[i].name in Step(ops, supported, i) ==> ops[ops[i].consumers[0]].name in Step(ops, supported, i)
  {
  }

  /** A supported op pulls in its Constant and Parameter producers and its Result consumers. */
  lemma {:induction false} StepPullsInNeighbours(ops: seq<OriginalOp>, supported: set<string>, i: nat, name: string)
    requires WellFormed(ops) && i < |ops| && ops[i].name in supported
    requires name in ConstantAndParameterInputs(ops, ops[i]) + ResultConsumers(ops, ops[i])
    requires name != ops[i].name
    ensures name in Step(ops, supported, i)
  {
  }
}
