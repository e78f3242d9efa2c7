# OpenVINO core pieces, modelled in Dafny

This project models self-contained parts of the OpenVINO toolkit and proves properties about them:

- **RTTI-free type identity.** A `DiscreteTypeInfo` holds a name, a version, an optional version id and an optional parent. `is_castable` walks the parent chain. `get_version` and the string form are built from these fields. `is_type`, `as_type` and `as_type_ptr` are built on `is_castable`.
- **GatherND (opset5).** The op declaration and its `batch_dims` attribute. The output-shape rule and the row-major gather, as the reference test vectors pin them down, including negative indices and batch dims.
- **PullTransposeThroughFQUp.** Moves a Transpose above a FakeQuantize. Each FakeQuantize input is padded to the data rank with an Unsqueeze and then transposed.
- **Low-precision AddTransformation:**
  - two canonicalisations: `x + c` to `x - (-c)`, and `(x - c1) + c2` to `x - (c1 - c2)`;
  - a re-association that moves the dequantisation Multiply behind the Add;
  - the veto and transformability checks.
- **Model Optimizer `FullyConnectedDecomposer` and `GemmDecomposer`.** They split bias, alpha and beta into Add and Mul nodes, reshape and transpose weights, flatten inputs, and turn the node into a MatMul.
- **Preprocessing step lists.** The mean/scale constant shape, element-type conversion, resize, layout conversion, colour conversion, and channel reversal. Post-processing conversions are included too.
- **CPU plugin decision logic.** This covers:
  - the precision-conversion table;
  - the per-pass veto predicates, where true means "skip this node";
  - the accepted input precisions;
  - `GetConfig`;
  - the set computation in `QueryNetwork`.

Graphs are arenas: a node is addressed by its index in a sequence, and its inputs are indices of other nodes. The nGraph rewrites run on `Graphs.Graph`.

- Its nodes have an op kind, a friendly name, the producers of their inputs, an output shape, an element type and constant values.
- `replace_node` redirects every consumer of one node to another.
- New nodes are appended at the end of the sequence.

The Model Optimizer passes run on `MatMulNormalizer.MoGraph`. Its nodes carry an attribute dictionary and a map from input port to source `(node, output port)`.

Operations that change state in place are methods on these classes or on the preprocessing contexts and step lists. Each method is specified by a function or predicate of the old and new node sequences. Pure rules are functions with lemmas about them.

Some helpers are called by the modelled code but are not themselves modelled (see Left out). They are parameters instead, either function values or records of helper results:

- the pattern matcher;
- NetworkHelper;
- the layout utilities;
- the MKLDNN node factory.

Files, one module each:

- `wrappers.dfy`: Option and Result.
- `element_types.dfy`: element types.
- `partial_shapes.dfy`: partial shapes.
- `type_info.dfy`
- `gather_nd.dfy`
- `graph.dfy`
- `pull_transpose_through_fq.dfy`
- `lpt_add.dfy`
- `matmul_normalizer.dfy`
- `preprocess_steps.dfy`
- `cpu_plugin.dfy`

## Model

| member | source | states |
|---|---|---|
| TypeInfo.MakeTypeInfo | ngraph/core/include/openvino/core/type.hpp:38-42 | the three-argument constructor stores name, version and parent, and leaves the version id unset |
| TypeInfo.MakeTypeInfoWithId | ngraph/core/include/openvino/core/type.hpp:44-51 | the four-argument constructor stores the given version id |
| TypeInfo.CastableToSelf | ngraph/core/include/openvino/core/type.hpp:53-55 | every descriptor is castable to itself |
| TypeInfo.CastableWitness | ngraph/core/include/openvino/core/type.hpp:53-55 | when `is_castable(target)` holds, the target sits at some position of the ancestor chain |
| TypeInfo.OnChainCastable | ngraph/core/include/openvino/core/type.hpp:53-55 | a target at any position of the ancestor chain is castable |
| TypeInfo.CastableIffOnChain | ngraph/core/include/openvino/core/type.hpp:53-55 | `is_castable(t)` holds exactly when `t` occurs on the ancestor chain, in both directions |
| TypeInfo.Ancestors | ngraph/core/include/openvino/core/type.hpp:32-34 | the chain starts with the descriptor itself |
| TypeInfo.AncestorChainIsSuffix | ngraph/core/include/openvino/core/type.hpp:32-34 | the chain of any ancestor is a suffix of the descendant's chain |
| TypeInfo.AncestorCastableImpliesCastable | ngraph/core/include/openvino/core/type.hpp:54 | a child is castable to everything any of its ancestors is castable to |
| TypeInfo.ChildCastableToParent | ngraph/core/include/openvino/core/type.hpp:54 | a child is castable to its parent |
| TypeInfo.RootCastableOnlyToItself | ngraph/core/include/openvino/core/type.hpp:53-55 | a descriptor without a parent is castable exactly to descriptors equal to it |
| TypeInfo.AncestorNotCastableToDescendant | ngraph/core/include/openvino/core/type.hpp:32-55 | on a uniquely registered chain, a strict ancestor is never castable to its descendant |
| TypeInfo.DecimalText | ngraph/core/include/openvino/core/type.hpp:61 | `std::to_string` of an unsigned number is all digits, with no leading zero |
| TypeInfo.DecimalRoundTrip | ngraph/core/include/openvino/core/type.hpp:61 | reading the decimal text back gives the number |
| TypeInfo.GetVersion | ngraph/core/include/openvino/core/type.hpp:57-62 | the version id when it is set, otherwise decimal text whose value is the version |
| TypeInfo.ToString | ngraph/core/include/openvino/core/type.hpp:64-66 | the string is the name, then `_`, then the version text |
| TypeInfo.ThreeArgumentVersionIsDecimal | ngraph/core/include/openvino/core/type.hpp:38-62 | descriptors from the three-argument constructor report their number as the version |
| TypeInfo.ToStringIdentifies | ngraph/core/include/openvino/core/type.hpp:64-66 | with underscore-free names and no version ids, equal strings mean equal name and version |
| TypeInfo.NoUnderscoreBeforeSeparator | ngraph/core/include/openvino/core/type.hpp:64-66 | in the string of an underscore-free name, the first underscore is the separator |
| TypeInfo.AsType | ngraph/core/include/openvino/core/type.hpp:103-119 | the same object exactly when `is_type` holds, null otherwise; it never fails |
| TypeInfo.ThreeLevelCasts | ngraph/core/include/openvino/core/type.hpp:88-119 | on a chain A, B, C: A is a C, A casts to B, and C does not cast to A |
| GatherND.MakeGatherND | ngraph/core/include/openvino/op/gather_nd.hpp:20-34 | the inputs are (data, indices) in that order, and `get_batch_dims` returns the value given |
| GatherND.BatchDimsDefaultsToZero | ngraph/core/include/openvino/op/gather_nd.hpp:26 | `batch_dims` is 0 when it is omitted |
| GatherND.GatherNDTypeInfo | ngraph/core/include/openvino/op/gather_nd.hpp:16 | the descriptor "GatherND"/"opset5" is castable to Op's descriptor and prints as `GatherND_opset5` |
| GatherND.InferShape | docs/template_plugin/tests/functional/op_reference/gather_nd.cpp:81-178 | shape inference succeeds exactly on consistent shapes; the output rank follows the batch_dims rule |
| GatherND.OutputSize | docs/template_plugin/tests/functional/op_reference/gather_nd.cpp:81-178 | the output holds batches × rows per batch × slice size elements |
| GatherND.Gather | docs/template_plugin/tests/functional/op_reference/gather_nd.cpp:73-75 | the output has as many elements as its shape (also lines 81-178) |
| GatherND.Evaluate | docs/template_plugin/tests/functional/op_reference/gather_nd.cpp:73-75 | evaluation succeeds exactly on valid shapes, matching sizes and in-range indices |
| GatherND.GatherBatchOf | docs/template_plugin/tests/functional/op_reference/gather_nd.cpp:153-178 | batch b of the output is the gather of batch b of data by batch b of indices |
| GatherND.GatherBatchSlice | docs/template_plugin/tests/functional/op_reference/gather_nd.cpp:93-98 | within a batch, output slice q is the data slice that index tuple q addresses |
| GatherND.GatherSliceAt | docs/template_plugin/tests/functional/op_reference/gather_nd.cpp:81-178 | output slice (b, q) is the row-major data slice that tuple q of batch b addresses, in index order |
| GatherND.BatchesAreIndependent | docs/template_plugin/tests/functional/op_reference/gather_nd.cpp:153-159 | with batch dims, batch b of the output equals GatherND with batch_dims 0 on batch b alone |
| GatherND.NegativeIndexNormalises | docs/template_plugin/tests/functional/op_reference/gather_nd.cpp:141-146 | a negative index counts from the end of its axis |
| GatherND.GatherDependsOnNormalisedIndices | docs/template_plugin/tests/functional/op_reference/gather_nd.cpp:135-146 | index vectors with the same normalised tuples give the same output |
| GatherND.GatherCommutesWithMap | docs/template_plugin/tests/functional/op_reference/gather_nd.cpp:183-203 | the gather commutes with every elementwise map, so it does not depend on the element type |
| GatherND.ShapeSingleIndices | docs/template_plugin/tests/functional/op_reference/gather_nd.cpp:81-86 | {3,3} with indices {2} gives a scalar |
| GatherND.ShapeSliceFrom2d | docs/template_plugin/tests/functional/op_reference/gather_nd.cpp:93-98 | {2,2} with indices {2,1} gives {2,2} |
| GatherND.ShapeBatch2dFrom3d | docs/template_plugin/tests/functional/op_reference/gather_nd.cpp:147-152 | {2,2,2} with indices {2,1,1} gives {2,1,2,2} |
| GatherND.ShapeBatchDims1 | docs/template_plugin/tests/functional/op_reference/gather_nd.cpp:153-159 | {2,3,4} with indices {2,1} and batch_dims 1 gives {2,4} |
| GatherND.ShapeBatchDims2 | docs/template_plugin/tests/functional/op_reference/gather_nd.cpp:160-171 | {2,3,4,2} with indices {2,3,3,2} and batch_dims 2 gives {6,3} |
| GatherND.ShapeBatchDims2LeadDims | docs/template_plugin/tests/functional/op_reference/gather_nd.cpp:172-178 | {2,3,4} with indices {2,3,1,1} and batch_dims 2 gives {6,1} |
| GatherND.NegativeVectorMatchesPositive | docs/template_plugin/tests/functional/op_reference/gather_nd.cpp:135-146 | the `_negative` index vector gathers the same elements as its non-negative twin, from any data |
| PartialShapes.GetShape | inference-engine/src/transformations/src/transformations/common_optimizations/pull_transpose_through_fq.cpp:34-37 | `get_shape` succeeds exactly on fully static shapes and returns their dims |
| PartialShapes.RankLength | inference-engine/src/transformations/src/transformations/common_optimizations/pull_transpose_through_fq.cpp:47-53 | `rank().get_length()` succeeds exactly on a static rank and returns it |
| Graphs.Count | inference-engine/src/transformations/src/transformations/common_optimizations/pull_transpose_through_fq.cpp:25 | a count is zero exactly when the value is absent |
| Graphs.ReplaceUses | inference-engine/src/transformations/src/transformations/common_optimizations/pull_transpose_through_fq.cpp:72 | `replace_node`: each node's inputs are redirected from the old node to the new one |
| Graphs.CountRedirect | inference-engine/src/transformations/src/transformations/common_optimizations/pull_transpose_through_fq.cpp:72 | redirecting an input list moves the count of `from` onto `to`, and other counts stay the same |
| Graphs.ReplaceUsesMovesConsumers | inference-engine/src/transformations/src/transformations/common_optimizations/pull_transpose_through_fq.cpp:72 | after `replace_node`, nothing reads the old node, the new one has both sets of consumers, and others keep theirs |
| Graphs.ReplaceUsesKeepsClosed | inference-engine/src/low_precision_transformations/src/add.cpp:67 | `replace_node` keeps every input inside the graph (also lines 91, 230) |
| Graphs.ReplaceUsesKeepsNodes | inference-engine/src/low_precision_transformations/src/add.cpp:67 | `replace_node` changes only inputs; kinds, names, shapes, types and values stay (also lines 91, 230) |
| Graphs.ReplaceUsesLeavesNonConsumers | inference-engine/src/low_precision_transformations/src/add.cpp:67 | a node that did not read the old node is left as it was (also lines 91, 230) |
| Graphs.UseCountAppend | inference-engine/src/transformations/src/transformations/common_optimizations/pull_transpose_through_fq.cpp:59-68 | an appended node adds its own uses to the count |
| Graphs.Graph.AddNode | inference-engine/src/transformations/src/transformations/common_optimizations/pull_transpose_through_fq.cpp:59-68 | a new node is appended and its index returned |
| Graphs.Graph.ReplaceNode | inference-engine/src/transformations/src/transformations/common_optimizations/pull_transpose_through_fq.cpp:72 | the graph becomes `ReplaceUses` of the old graph |
| Graphs.Graph.SetFriendlyName | inference-engine/src/transformations/src/transformations/common_optimizations/pull_transpose_through_fq.cpp:70 | only that node's name changes |
| PullTransposeThroughFQ.CastToInt64 | inference-engine/src/transformations/src/transformations/common_optimizations/pull_transpose_through_fq.cpp:42 | `cast_vector<int64_t>` truncates toward zero |
| PullTransposeThroughFQ.UnsqueezeAxes | inference-engine/src/transformations/src/transformations/common_optimizations/pull_transpose_through_fq.cpp:54-57 | the axes are exactly 0 .. input_rank − rank − 1, and there are none when rank ≥ input_rank |
| PullTransposeThroughFQ.UnsqueezedShape | inference-engine/src/transformations/src/transformations/common_optimizations/pull_transpose_through_fq.cpp:58-60 | Unsqueeze on axes 0..n−1 puts n unit dims in front of the shape |
| PullTransposeThroughFQ.TransposedShape | inference-engine/src/transformations/src/transformations/common_optimizations/pull_transpose_through_fq.cpp:63 | a transposed shape has the rank of its input and of the permutation |
| PullTransposeThroughFQ.InfoOfMatchFits | inference-engine/src/transformations/src/transformations/common_optimizations/pull_transpose_through_fq.cpp:20-27 | on a match, all five FakeQuantize inputs exist and have static rank |
| PullTransposeThroughFQ.PaddedInputHasDataRank | inference-engine/src/transformations/src/transformations/common_optimizations/pull_transpose_through_fq.cpp:47-63 | after padding, every input of rank at most input_rank has exactly input_rank |
| PullTransposeThroughFQ.PaddedPositions | inference-engine/src/transformations/src/transformations/common_optimizations/pull_transpose_through_fq.cpp:58-61 | the positions of low-rank inputs are listed in strictly increasing order, and exactly those |
| PullTransposeThroughFQ.PadAndTranspose | inference-engine/src/transformations/src/transformations/common_optimizations/pull_transpose_through_fq.cpp:52-63 | one input gets an Unsqueeze exactly when its rank is below input_rank, then a Transpose by the perm |
| PullTransposeThroughFQ.BuildInput | inference-engine/src/transformations/src/transformations/common_optimizations/pull_transpose_through_fq.cpp:51-66 | one loop iteration extends the built inputs and the listed Unsqueezes by input i |
| PullTransposeThroughFQ.BuildInputs | inference-engine/src/transformations/src/transformations/common_optimizations/pull_transpose_through_fq.cpp:49-66 | the loop builds every input in order, and lists the Unsqueezes in input order |
| PullTransposeThroughFQ.AddClone | inference-engine/src/transformations/src/transformations/common_optimizations/pull_transpose_through_fq.cpp:68-70 | the new FakeQuantize reads the new inputs in order and carries the Transpose's friendly name |
| PullTransposeThroughFQ.ReplaceWithClone | inference-engine/src/transformations/src/transformations/common_optimizations/pull_transpose_through_fq.cpp:68-72 | the clone is added, named, and replaces the Transpose |
| PullTransposeThroughFQ.AfterReplace | inference-engine/src/transformations/src/transformations/common_optimizations/pull_transpose_through_fq.cpp:72 | `replace_node` leaves the new nodes and what they build untouched |
| PullTransposeThroughFQ.PullTransposeThroughFQUp | inference-engine/src/transformations/src/transformations/common_optimizations/pull_transpose_through_fq.cpp:29-75 | see the row notes below the table |
| LptAdd.Negate | inference-engine/src/low_precision_transformations/src/add.cpp:55 | `fold<Negative>` negates every value |
| LptAdd.BroadcastSub | inference-engine/src/low_precision_transformations/src/add.cpp:80-82 | `fold<Subtract>` is elementwise, with a single value broadcast |
| LptAdd.SubtractNegatedIsAdd | inference-engine/src/low_precision_transformations/src/add.cpp:55-63 | x − (−c) computes x + c |
| LptAdd.FusedSubtractIsAdd | inference-engine/src/low_precision_transformations/src/add.cpp:80-88 | (x − c1) + c2 computes x − (c1 − c2) |
| LptAdd.ConstBranchIndex | inference-engine/src/low_precision_transformations/src/add.cpp:38-40 | 0 when input 0 is a Constant, else 1 when input 1 is, else −1 (each case an iff) |
| LptAdd.NegatedConstant | inference-engine/src/low_precision_transformations/src/add.cpp:55 | the folded constant holds the negated values |
| LptAdd.ReplacedBySubtract | inference-engine/src/low_precision_transformations/src/add.cpp:55-67 | the replacement appends two nodes |
| LptAdd.ReplaceToSubtract | inference-engine/src/low_precision_transformations/src/add.cpp:27-69 | see the row notes below the table |
| LptAdd.ReplacedBySubtractShape | inference-engine/src/low_precision_transformations/src/add.cpp:44-67 | see the row notes below the table |
| LptAdd.FoldSubtract | inference-engine/src/low_precision_transformations/src/add.cpp:80-82 | a folded Constant of c1 − y when y is a Constant, else a Subtract node over (c1, y) |
| LptAdd.FusedWithSubtract | inference-engine/src/low_precision_transformations/src/add.cpp:80-91 | the fusion appends two nodes |
| LptAdd.FuseWithSubtract | inference-engine/src/low_precision_transformations/src/add.cpp:71-93 | see the row notes below the table |
| LptAdd.FusedIsSubtract | inference-engine/src/low_precision_transformations/src/add.cpp:84-91 | after fusion nothing reads the Add: each former consumer reads the new Subtract instead, which reads the inner Subtract's data and the folded c1 - c2 (a Constant holding the broadcast difference when c2 is one) |
| LptAdd.ZeroScaleBlocks | inference-engine/src/low_precision_transformations/src/add.cpp:245-257 | a zero scale on either branch makes `canBeTransformed` false |
| LptAdd.TransformableScalesNonZero | inference-engine/src/low_precision_transformations/src/add.cpp:245-257 | once `canBeTransformed` holds, both branch scales are nonzero |
| LptAdd.EmptyPathIndex | inference-engine/src/low_precision_transformations/src/add.cpp:159 | emptyPathIndex = 1 − fullPathIndex |
| LptAdd.ReassociationPreservesSum | inference-engine/src/low_precision_transformations/src/add.cpp:178-228 | see the row notes below the table |
| LptAdd.ZeroShiftNeedsNoSubtract | inference-engine/src/low_precision_transformations/src/add.cpp:191-211 | the rebuilt full path's Multiply reads a new Subtract exactly when the derived shift is non-zero; with a zero shift it reads the full-path input or its Convert |
| LptAdd.ShiftedPathStable | inference-engine/src/low_precision_transformations/src/add.cpp:207-219 | the Subtract part of the full path stays built while nodes are appended |
| LptAdd.FullPathStable | inference-engine/src/low_precision_transformations/src/add.cpp:207-219 | the rebuilt full path stays built while nodes are appended |
| LptAdd.ConvertIfNeeded | inference-engine/src/low_precision_transformations/src/add.cpp:209-217 | a Convert is added exactly when the element type differs from the constant's |
| LptAdd.BuildShiftedPath | inference-engine/src/low_precision_transformations/src/add.cpp:212-218 | a Subtract of the derived shift over the (converted) full-path input |
| LptAdd.BuildFullPath | inference-engine/src/low_precision_transformations/src/add.cpp:207-219 | the full path is a Multiply by the derived scale over the Subtract, or over the (converted) input when the shift is zero |
| LptAdd.AppendAddAndMultiply | inference-engine/src/low_precision_transformations/src/add.cpp:221-228 | the new Add reads the two paths in their input positions, and the new Multiply reads the Add and the empty-path scale |
| LptAdd.AddAndMultiply | inference-engine/src/low_precision_transformations/src/add.cpp:221-230 | the new Add and Multiply are appended and replace the old Add |
| LptAdd.AddAndMultiplyReplaced | inference-engine/src/low_precision_transformations/src/add.cpp:230 | after `replace_node`, the result is re-associated and old consumers read the new Multiply |
| LptAdd.FullPathAfterReplace | inference-engine/src/low_precision_transformations/src/add.cpp:230 | `replace_node` of the old Add does not disturb the new full path |
| LptAdd.RebuildWithFullPath | inference-engine/src/low_precision_transformations/src/add.cpp:159-230 | see the row notes below the table |
| LptAdd.ReplaceUsesKeepsArities | inference-engine/src/low_precision_transformations/src/add.cpp:67 | `replace_node` keeps every node's input count (also lines 91, 230) |
| LptAdd.SwappedTail | inference-engine/src/low_precision_transformations/src/add.cpp:142-156 | see the row notes below the table |
| LptAdd.Transform | inference-engine/src/low_precision_transformations/src/add.cpp:112-243 | see the row notes below the table |
| LptAdd.Callback | inference-engine/src/low_precision_transformations/src/add.cpp:100-106 | see the row notes below the table |
| MatMulNormalizer.SoftName | model-optimizer/extensions/front/MatMul_normalizer.py:35-78 | `soft_get('name', id)`: the name when it is valid, otherwise the id |
| MatMulNormalizer.CloseToOneIsNearOne | model-optimizer/extensions/front/MatMul_normalizer.py:80-95 | a value is `isclose` to 1 exactly when it lies between 1 - 1e-9 and 1 / (1 - 1e-9) |
| MatMulNormalizer.UnitScaleAddsNoMul | model-optimizer/extensions/front/MatMul_normalizer.py:80-95 | an alpha or beta of exactly 1 is not applied: the alpha stage leaves the graph unchanged, and no beta Mul is inserted |
| MatMulNormalizer.Retarget | model-optimizer/extensions/front/MatMul_normalizer.py:43-90 | the ports stay the same, and exactly the ports reading `from` now read `to` |
| MatMulNormalizer.SetSourceOf | model-optimizer/extensions/front/MatMul_normalizer.py:43-90 | `set_source`: every node in the graph retargets its ports |
| MatMulNormalizer.SetSourceMovesReaders | model-optimizer/extensions/front/MatMul_normalizer.py:43-90 | after `set_source`, nothing reads the old output and every former reader reads the new one |
| MatMulNormalizer.RetargetUnread | model-optimizer/extensions/front/MatMul_normalizer.py:43-90 | a node not reading `from` is unchanged |
| MatMulNormalizer.MoGraph.constructor | model-optimizer/extensions/front/MatMul_normalizer.py:33-75 | the graph holds the given nodes and framework |
| MatMulNormalizer.MoGraph.AddNode | model-optimizer/extensions/front/MatMul_normalizer.py:39-89 | `create_node` appends a node and returns its index |
| MatMulNormalizer.MoGraph.SetSource | model-optimizer/extensions/front/MatMul_normalizer.py:43-90 | the nodes become `SetSourceOf` the old nodes |
| MatMulNormalizer.MoGraph.SetInput | model-optimizer/extensions/front/MatMul_normalizer.py:44-92 | one port of one node is set, and nothing else changes |
| MatMulNormalizer.MoGraph.SetAttribute | model-optimizer/extensions/front/MatMul_normalizer.py:42-89 | `rename_nodes`: one attribute of one node is set |
| MatMulNormalizer.MoGraph.DeleteAttribute | model-optimizer/extensions/front/MatMul_normalizer.py:85-99 | `del node[k]`: one attribute is removed |
| MatMulNormalizer.MoGraph.InsertOnInput | model-optimizer/extensions/front/MatMul_normalizer.py:53-98 | the nodes become `InsertedOnInput` of the old nodes |
| MatMulNormalizer.MoGraph.MakeMatMul | model-optimizer/extensions/front/MatMul_normalizer.py:64-104 | only node n changes, to `AsMatMul` |
| MatMulNormalizer.AsMatMul | model-optimizer/extensions/front/MatMul_normalizer.py:64-104 | `update_node_stat`: op and type become MatMul, inputs are kept, the given attributes are set, and the others are kept |
| MatMulNormalizer.SetDestination | model-optimizer/extensions/front/MatMul_normalizer.py:44-91 | the edge into n.p now ends at m.q, and n.p is disconnected |
| MatMulNormalizer.InsertedOnInput | model-optimizer/extensions/front/MatMul_normalizer.py:53-98 | see the row notes below the table |
| MatMulNormalizer.InsertOpOnInputPort | model-optimizer/extensions/front/MatMul_normalizer.py:53-98 | fails exactly when the port is not connected (and then changes nothing); otherwise the op sits between n.p and its source |
| MatMulNormalizer.AttachBias | model-optimizer/extensions/front/MatMul_normalizer.py:38-94 | see the row notes below the table |
| MatMulNormalizer.BiasTakesOverReaders | model-optimizer/extensions/front/MatMul_normalizer.py:43 | after the bias split, every former reader of the output reads the Add |
| MatMulNormalizer.ReshapeDim | model-optimizer/extensions/front/MatMul_normalizer.py:49-52 | [−1, out-size], or [out-size, −1] when transpose_weights is set |
| MatMulNormalizer.TransposedWeightsAgree | model-optimizer/extensions/front/MatMul_normalizer.py:51-57 | transposing the [out-size, −1] target by [1,0] gives the plain [−1, out-size] layout |
| MatMulNormalizer.OpOverStable | model-optimizer/extensions/front/MatMul_normalizer.py:53-62 | an inserted op with its Const stays as built when later nodes change elsewhere |
| MatMulNormalizer.FcBias | model-optimizer/extensions/front/MatMul_normalizer.py:38-45 | the bias split runs exactly when port 2 is connected, and needs a valid name |
| MatMulNormalizer.FcWeights | model-optimizer/extensions/front/MatMul_normalizer.py:48-57 | the weights Reshape on port 1, then the Transpose [1,0] only with transpose_weights |
| MatMulNormalizer.FcFlatten | model-optimizer/extensions/front/MatMul_normalizer.py:60-62 | the Reshape [0, −1] on port 0 exactly for caffe and mxnet |
| MatMulNormalizer.FcAppended | model-optimizer/extensions/front/MatMul_normalizer.py:38-62 | the three stages append the bias Add, the Reshape, the Transpose and the flatten Reshape as specified |
| MatMulNormalizer.FcNode | model-optimizer/extensions/front/MatMul_normalizer.py:40-64 | the FC node itself is a MatMul reading the inserted ops, and is renamed `/WithoutBiases` when biased |
| MatMulNormalizer.FcCompose | model-optimizer/extensions/front/MatMul_normalizer.py:33-64 | the three stages and `update_node_stat` together give `FcDecomposed` |
| MatMulNormalizer.FullyConnectedDecompose | model-optimizer/extensions/front/MatMul_normalizer.py:33-64 | see the row notes below the table |
| MatMulNormalizer.FcReadersReadBias | model-optimizer/extensions/front/MatMul_normalizer.py:39-45 | after the decomposition with a bias, no old node but the Add reads the FC output |
| MatMulNormalizer.CreateOpWithConstInput | model-optimizer/extensions/front/MatMul_normalizer.py:81-82 | `create_op_with_const_inputs` appends the op and a Const on its port 1 |
| MatMulNormalizer.InsertNode | model-optimizer/extensions/front/MatMul_normalizer.py:83 | `insert_node`: the new node reads the output, and all former readers read the new node |
| MatMulNormalizer.RetargetCompose | model-optimizer/extensions/front/MatMul_normalizer.py:83-90 | moving readers from a to b, then from b to c, moves them from a to c |
| MatMulNormalizer.ClosedUnread | model-optimizer/extensions/front/MatMul_normalizer.py:81-83 | no node of a closed graph reads a node that does not exist yet |
| MatMulNormalizer.GemmAlpha | model-optimizer/extensions/front/MatMul_normalizer.py:80-85 | see the row notes below the table |
| MatMulNormalizer.BiasBetaCompose | model-optimizer/extensions/front/MatMul_normalizer.py:87-99 | the bias split followed by the beta insertion gives `BiasBetaStage` |
| MatMulNormalizer.GemmBeta | model-optimizer/extensions/front/MatMul_normalizer.py:95-99 | the beta Mul on the bias Add's port 1, with `beta` deleted from the Gemm |
| MatMulNormalizer.GemmBias | model-optimizer/extensions/front/MatMul_normalizer.py:87-99 | see the row notes below the table |
| MatMulNormalizer.GemmStagedIs | model-optimizer/extensions/front/MatMul_normalizer.py:80-99 | see the row notes below the table |
| MatMulNormalizer.GemmStagedNode | model-optimizer/extensions/front/MatMul_normalizer.py:101-104 | the MatMul's transpose_a and transpose_b are the Gemm's `has_and_set` values |
| MatMulNormalizer.GemmNodeCompose | model-optimizer/extensions/front/MatMul_normalizer.py:80-104 | the Gemm node ends as a MatMul with its flags; alpha is gone iff applied, beta gone iff applied, and it is renamed `/WithoutBiases` when biased |
| MatMulNormalizer.GemmAppendedCompose | model-optimizer/extensions/front/MatMul_normalizer.py:80-99 | the alpha Mul, bias Add and beta Mul are appended with these inputs and names |
| MatMulNormalizer.GemmFrameCompose | model-optimizer/extensions/front/MatMul_normalizer.py:83-90 | every other old node reads the last new output where it read the Gemm |
| MatMulNormalizer.GemmCompose | model-optimizer/extensions/front/MatMul_normalizer.py:78-104 | the three stages give `GemmDecomposed` |
| MatMulNormalizer.GemmOne | model-optimizer/extensions/front/MatMul_normalizer.py:78-104 | one Gemm rewritten: the result is `GemmDecomposed` of the old graph |
| MatMulNormalizer.GemmDecomposedOps | model-optimizer/extensions/front/MatMul_normalizer.py:78-104 | the Gemm is `GemmRewritten`; other old nodes change only where their connected ports lead; new nodes are Mul, Const or Add |
| MatMulNormalizer.GemmDecomposer | model-optimizer/extensions/front/MatMul_normalizer.py:76-104 | see the row notes below the table |
| PreprocessSteps.PreprocessingContext.constructor | ngraph/core/src/preprocess/preprocess_steps_impl.cpp:22 | the context holds the layout, colour format and targets the actions read (also lines 123, 164, 205) |
| PreprocessSteps.PostprocessingContext.constructor | ngraph/core/src/preprocess/preprocess_steps_impl.cpp:303-318 | the context holds the layout and targets the post-actions read |
| PreprocessSteps.MeanScaleShape | ngraph/core/src/preprocess/preprocess_steps_impl.cpp:17-32 | see the row notes below the table |
| PreprocessSteps.MeanScaleConstantShape | ngraph/core/src/preprocess/preprocess_steps_impl.cpp:43-68 | {1} for a single value, otherwise the per-channel shape |
| PreprocessSteps.SinglePlane | ngraph/core/src/preprocess/preprocess_steps_impl.cpp:38-41 | succeeds exactly on one plane, and returns it |
| PreprocessSteps.ApplyScale | ngraph/core/src/preprocess/preprocess_steps_impl.cpp:34-53 | fails on zero or several planes; otherwise one Divide by a constant of that shape, flag false |
| PreprocessSteps.ApplyMean | ngraph/core/src/preprocess/preprocess_steps_impl.cpp:55-74 | fails on zero or several planes; otherwise one Subtract, flag false |
| PreprocessSteps.ApplyConvert | ngraph/core/src/preprocess/preprocess_steps_impl.cpp:76-100 | see the row notes below the table |
| PreprocessSteps.ApplyResize | ngraph/core/src/preprocess/preprocess_steps_impl.cpp:102-154 | see the row notes below the table |
| PreprocessSteps.ApplyConvertLayout | ngraph/core/src/preprocess/preprocess_steps_impl.cpp:156-178 | see the row notes below the table |
| PreprocessSteps.ApplyConvertLayoutDims | ngraph/core/src/preprocess/preprocess_steps_impl.cpp:185-198 | one Transpose by dims, and the context layout becomes the permuted layout |
| PreprocessSteps.DescendingRange | ngraph/core/src/preprocess/preprocess_steps_impl.cpp:284-290 | Range(start, stop, −1) has start − stop values |
| PreprocessSteps.DescendingRangeAt | ngraph/core/src/preprocess/preprocess_steps_impl.cpp:284-290 | value i of the range is start − i |
| PreprocessSteps.ChannelOrderReverses | ngraph/core/src/preprocess/preprocess_steps_impl.cpp:283-290 | the gather indices are C−1, …, 0 |
| PreprocessSteps.GatherChannels | ngraph/core/src/preprocess/preprocess_steps_impl.cpp:292-294 | gather yields one slice per index |
| PreprocessSteps.ReverseChannelsTwiceIsIdentity | ngraph/core/src/preprocess/preprocess_steps_impl.cpp:283-294 | reversing the channels twice restores them |
| PreprocessSteps.ReverseChannels | ngraph/core/src/preprocess/preprocess_steps_impl.cpp:266-296 | succeeds exactly on one plane with a channels dim; one Gather on the channels axis, flag false |
| PreprocessSteps.ConvertColor | ngraph/core/src/preprocess/preprocess_steps_impl.cpp:201-256 | see the row notes below the table |
| PreprocessSteps.ApplyConvertColor | ngraph/core/src/preprocess/preprocess_steps_impl.cpp:205-250 | the result is `ConvertColor`; the colour becomes dst exactly on success, and the layout is kept |
| PreprocessSteps.NV12ReachesOnlyRgbOrBgr | ngraph/core/src/preprocess/preprocess_steps_impl.cpp:208-243 | a successful conversion from NV12 lands on RGB or BGR |
| PreprocessSteps.RgbBgrRoundTrip | ngraph/core/src/preprocess/preprocess_steps_impl.cpp:245-294 | RGB to BGR is one channel-reversing Gather on the channels axis, and converting back to RGB adds a second one on the same axis |
| PreprocessSteps.PreStepsList.constructor | ngraph/core/src/preprocess/preprocess_steps_impl.cpp:34-35 | no actions and no layout conversions |
| PreprocessSteps.PreStepsList.AddScale | ngraph/core/src/preprocess/preprocess_steps_impl.cpp:34-35 | appends one scale action |
| PreprocessSteps.PreStepsList.AddMean | ngraph/core/src/preprocess/preprocess_steps_impl.cpp:55-56 | appends one mean action |
| PreprocessSteps.PreStepsList.AddConvert | ngraph/core/src/preprocess/preprocess_steps_impl.cpp:76-77 | appends one convert action |
| PreprocessSteps.PreStepsList.AddResize | ngraph/core/src/preprocess/preprocess_steps_impl.cpp:102-104 | appends one resize action |
| PreprocessSteps.PreStepsList.AddConvertLayout | ngraph/core/src/preprocess/preprocess_steps_impl.cpp:156-157 | appends one layout action |
| PreprocessSteps.PreStepsList.AddConvertLayoutDims | ngraph/core/src/preprocess/preprocess_steps_impl.cpp:180-185 | empty dims record nothing; otherwise dims go to the front of the layout conversions and one action is appended |
| PreprocessSteps.PreStepsList.AddConvertColor | ngraph/core/src/preprocess/preprocess_steps_impl.cpp:201-202 | appends one colour action |
| PreprocessSteps.PreStepsList.AddReverseChannels | ngraph/core/src/preprocess/preprocess_steps_impl.cpp:258-259 | appends one reverse-channels action |
| PreprocessSteps.ApplyPreAction | ngraph/core/src/preprocess/preprocess_steps_impl.cpp:34-264 | each recorded action has the outcome of its `add_*` lambda: scale, mean, resize and reverse-channels give their step's result; a type conversion, a layout conversion by name or by dims gives the result and (for layouts) the new context layout its step promises; a colour conversion gives its result and records the new colour format exactly when it succeeds; no other action changes the colour format or the layout |
| PreprocessSteps.PostConvert | ngraph/core/src/preprocess/preprocess_steps_impl.cpp:299-314 | unchanged with flag false when the effective type matches; otherwise a Convert, or an error for a dynamic or undefined type |
| PreprocessSteps.PostConvertLayout | ngraph/core/src/preprocess/preprocess_steps_impl.cpp:316-332 | the same rule as the preprocessing layout conversion, on the single output |
| PreprocessSteps.PostConvertLayoutDims | ngraph/core/src/preprocess/preprocess_steps_impl.cpp:338-345 | one Transpose by dims; the layout is permuted |
| PreprocessSteps.PostStepsList.constructor | ngraph/core/src/preprocess/preprocess_steps_impl.cpp:299-300 | no actions |
| PreprocessSteps.PostStepsList.AddConvert | ngraph/core/src/preprocess/preprocess_steps_impl.cpp:299-300 | appends one convert action |
| PreprocessSteps.PostStepsList.AddConvertLayout | ngraph/core/src/preprocess/preprocess_steps_impl.cpp:316-317 | appends one layout action |
| PreprocessSteps.PostStepsList.AddConvertLayoutDims | ngraph/core/src/preprocess/preprocess_steps_impl.cpp:334-338 | empty dims record nothing; otherwise one action is appended |
| CpuPlugin.GetConvertPrecisions | inference-engine/src/mkldnn_plugin/mkldnn_plugin.cpp:139-157 | see the row notes below the table |
| CpuPlugin.SpaceDepthVeto | inference-engine/src/mkldnn_plugin/mkldnn_plugin.cpp:194-199 | skip exactly when the input rank is ≤ 5 and equals the output rank; errors come from reading a non-static shape |
| CpuPlugin.BatchSpaceVeto | inference-engine/src/mkldnn_plugin/mkldnn_plugin.cpp:201-206 | skip exactly when the rank is 4 or 5; a dynamic rank is an error |
| CpuPlugin.SoftmaxVeto | inference-engine/src/mkldnn_plugin/mkldnn_plugin.cpp:296-299 | skip exactly when the rank is ≤ 5 |
| CpuPlugin.UnrollTensorIteratorVeto | inference-engine/src/mkldnn_plugin/mkldnn_plugin.cpp:423-426 | skip exactly when the runtime info lacks "UNROLL_TI" |
| CpuPlugin.CellSupportedIffUnclippedDefault | inference-engine/src/mkldnn_plugin/mkldnn_plugin.cpp:208-225 | a cell is supported iff it has no clip and (RNN cell aside) default activations |
| CpuPlugin.SupportedCellCount | inference-engine/src/mkldnn_plugin/mkldnn_plugin.cpp:275-277 | the count is at most the body size |
| CpuPlugin.SupportedCellCountCounts | inference-engine/src/mkldnn_plugin/mkldnn_plugin.cpp:275-277 | the count equals the number of body positions holding a natively supported cell |
| CpuPlugin.TensorIteratorVeto | inference-engine/src/mkldnn_plugin/mkldnn_plugin.cpp:270-281 | skip exactly when the node is not a TensorIterator or its body has a number of supported cells other than one |
| CpuPlugin.SequenceVeto | inference-engine/src/mkldnn_plugin/mkldnn_plugin.cpp:231-262 | a dynamic dim 1 keeps the conversion; the node is kept exactly when its shape is static of rank at least 2, it is a sequence with no clip and (RNN aside) the default activations, its sequence_lengths input exists and is not provided; it raises an error exactly when the shape cannot be read, or the `&&` chain reaches a sequence_lengths input the node lacks |
| CpuPlugin.NmsVeto | inference-engine/src/mkldnn_plugin/mkldnn_plugin.cpp:302-313 | skip exactly when every consumer of every output is a Result |
| CpuPlugin.CheckInputPrecisions | inference-engine/src/mkldnn_plugin/mkldnn_plugin.cpp:441-458 | succeeds exactly when every input precision is one of the ten accepted; a failure names a rejected input |
| CpuPlugin.GetConfig | inference-engine/src/mkldnn_plugin/mkldnn_plugin.cpp:558-567 | the stored value for a known key, and "Unsupported config key" otherwise |
| CpuPlugin.MarkedByPrefix | inference-engine/src/mkldnn_plugin/mkldnn_plugin.cpp:679-698 | a name is marked by the first i+1 ops iff it is marked by the first i or by op i |
| CpuPlugin.CollectNames | inference-engine/src/mkldnn_plugin/mkldnn_plugin.cpp:658-661 | the loop collects exactly the original names |
| CpuPlugin.MarkedNamesGrow | inference-engine/src/mkldnn_plugin/mkldnn_plugin.cpp:689-697 | one more transformed op adds exactly its own fused original names |
| CpuPlugin.AddFusedNames | inference-engine/src/mkldnn_plugin/mkldnn_plugin.cpp:689-697 | an op's original fused names go to supported if it is creatable, else to unsupported |
| CpuPlugin.EraseAll | inference-engine/src/mkldnn_plugin/mkldnn_plugin.cpp:699-701 | the erase loop leaves supported − unsupported |
| CpuPlugin.SupportedFusedNames | inference-engine/src/mkldnn_plugin/mkldnn_plugin.cpp:677-701 | phase one gives names fused only into creatable ops |
| CpuPlugin.AddConstantAndParameterInputs | inference-engine/src/mkldnn_plugin/mkldnn_plugin.cpp:704-708 | adds the names of the Constant and Parameter producers |
| CpuPlugin.AddResultConsumers | inference-engine/src/mkldnn_plugin/mkldnn_plugin.cpp:709-715 | adds the names of the Result consumers |
| CpuPlugin.QueryNetwork | inference-engine/src/mkldnn_plugin/mkldnn_plugin.cpp:652-737 | fails exactly without a function; otherwise the ordered walk from the phase-one set |
| CpuPlugin.WalkKeepsOtherNames | inference-engine/src/mkldnn_plugin/mkldnn_plugin.cpp:702-727 | the walk never changes the membership of names other than Constant, Parameter and Result names |
| CpuPlugin.WalkStaysWithinNames | inference-engine/src/mkldnn_plugin/mkldnn_plugin.cpp:702-727 | the walk adds only names of original ops |
| CpuPlugin.QueryReportsOnlyOriginalNames | inference-engine/src/mkldnn_plugin/mkldnn_plugin.cpp:689-731 | only original op names are reported |
| CpuPlugin.UnsupportedNameNeverReported | inference-engine/src/mkldnn_plugin/mkldnn_plugin.cpp:694-701 | a name fused into an uncreatable op is never reported (unless the walk decides it) |
| CpuPlugin.OrdinaryNameReportedIffFusedSupported | inference-engine/src/mkldnn_plugin/mkldnn_plugin.cpp:689-727 | an ordinary op's name is reported exactly when phase one supports it |
| CpuPlugin.StepKeepsResultOnlyWithProducer | inference-engine/src/mkldnn_plugin/mkldnn_plugin.cpp:722-725 | after its step, a Result stays only if its producer is supported |
| CpuPlugin.StepKeepsConstantOnlyWithConsumer | inference-engine/src/mkldnn_plugin/mkldnn_plugin.cpp:718-721 | after its step, a Constant or Parameter stays only if its first consumer is supported |
| CpuPlugin.StepPullsInNeighbours | inference-engine/src/mkldnn_plugin/mkldnn_plugin.cpp:703-716 | a supported op pulls in its Constant and Parameter producers and its Result consumers |

Row notes, for the members whose "states" cell refers here:

- **PullTransposeThroughFQ.PullTransposeThroughFQUp**
  - It returns false with the graph unchanged exactly when the ranges are not all scalars and the perm does not start 0, 1.
  - Otherwise `new_ops` lists the Unsqueezes in input order and then the new FakeQuantize.
  - The new FakeQuantize reads the padded and transposed inputs in order, has the Transpose's name, and takes over all of its consumers.
- **LptAdd.ReplaceToSubtract**
  - It does nothing exactly when the node is not an Add with a Constant input whose data producer allows it.
  - Otherwise x − (−c) replaces the Add.
- **LptAdd.ReplacedBySubtractShape**
  - Nothing reads the Add any more.
  - The Subtract reads the data branch and the negated constant.
- **LptAdd.FuseWithSubtract**
  - It does nothing exactly unless input 0 is a Subtract of a Constant.
  - Otherwise x − fold(c1 − c2) replaces the Add.
- **LptAdd.ReassociationPreservesSum**: SC_e·((X_f − SH_f′)·SC_f′ + X_e) = SC_f·(X_f − SH_f) + SC_e·(X_e − SH_e) for nonzero scales.
- **LptAdd.RebuildWithFullPath**
  - The full-path Multiply by SC_f/SC_e and the empty-path data feed a new Add.
  - That Add is followed by a Multiply by SC_e, which replaces the old Add.
- **LptAdd.SwappedTail**
  - Under the swapped Multiply, the Add is first fused with a Subtract, then replaced by a Subtract.
  - The result satisfies `SwapTail`.
- **LptAdd.Transform**
  - It returns false with the graph unchanged exactly when `Declines` holds: not an Add, `canBeTransformed` false, no full path and no multiply branch, or the empty path rejected.
  - Otherwise the result is the swapped-tail rewrite or the re-association with the derived constants.
- **LptAdd.Callback**
  - It returns true exactly when it is not vetoed and `transform` does not decline.
  - A vetoed node is left unchanged.
- **MatMulNormalizer.InsertedOnInput**
  - The new op reads the old source on port 0 and a new Const on port 1.
  - Port p of n reads the op.
- **MatMulNormalizer.AttachBias**
  - The Add reads the output on port 0 and the old bias source on port 1.
  - The Add takes the original name, and n is renamed `/WithoutBiases`.
  - The former readers read the Add.
- **MatMulNormalizer.FullyConnectedDecompose**
  - It fails exactly when one of these holds:
    - a bias is connected without a valid name;
    - `out-size` is missing;
    - port 1 is not connected;
    - caffe or mxnet input port 0 is not connected.
  - Otherwise the graph is `FcDecomposed`: bias Add, weights Reshape, Transpose, flatten Reshape and MatMul.
- **MatMulNormalizer.GemmAlpha**
  - The Mul after the output is added and `alpha` deleted exactly when alpha is valid and not close to 1.
  - The returned port is where the graph continues.
- **MatMulNormalizer.GemmBias**
  - When port 2 is connected, an Add after the current output takes the name, and the Gemm is renamed.
  - When beta is also applied, a beta Mul sits on the Add's port 1.
- **MatMulNormalizer.GemmStagedIs**: after the alpha and bias steps, the Gemm node has alpha, name and beta edited and port 2 cut as specified.
- **MatMulNormalizer.GemmDecomposer**
  - Every old Gemm is `GemmRewritten`. It is a MatMul with its transpose flags, and alpha and beta are deleted exactly when applied. It is renamed `/WithoutBiases` exactly when port 2 was connected, and port 2 is cut then.
  - Every other old node keeps its op and attributes.
  - Every inserted node is a Mul, Const or Add.
  - No Gemm remains anywhere.
- **PreprocessSteps.MeanScaleShape**: the input's rank, all 1s except the channels axis, which holds the value count. It fails when a static channels dim differs from the count.
- **PreprocessSteps.ApplyConvert**
  - It fails exactly on no planes or a dynamic element type.
  - Otherwise the output has the same length and order, a plane is converted iff its type differs from the effective type, and the flag is true iff a Convert was added.
- **PreprocessSteps.ApplyResize**
  - It needs one plane, H and W in the layout, and a static rank.
  - A negative height or width falls back to the network's value, which needs a static network rank.
  - The result is one Interpolate on the H and W axes.
- **PreprocessSteps.ApplyConvertLayout**
  - An empty permutation passes the nodes through with flag false, and records only an explicitly given layout.
  - Otherwise the result is one Transpose, and the layout becomes the destination.
- **PreprocessSteps.ConvertColor**
  - The same format is a no-op with flag false.
  - NV12 needs 1 plane (single-plane) or 2 planes (two-plane), and reaches only RGB or BGR.
  - RGB and BGR convert into each other by channel reversal.
  - Any other source is an error.
- **CpuPlugin.GetConvertPrecisions**
  - It gives the ten base conversions, plus bf16→f32 exactly without AVX-512 core.
  - All targets are native types.
  - Sources are distinct, and no target is a source.

## Left out

- **Pattern matching and pass running.**
  - The pattern matcher, GraphRewrite, the pass Manager and PassConfig are not modelled.
  - A match is a precondition (`Matches`, `AnalysisFits`), and a veto is a boolean parameter.
  - No fixed-point iteration is modelled.
- **NetworkHelper queries in AddTransformation.** `getDequantization`, `getNotEmpty`, `getMultiplyConstBranch`, the result of `swapMultiplyAndAdd` and `isLowPrecision` are inputs: the `Analysis` parameter.
  - `zeroOrDenormal` is a parameter with zeroOrDenormal(0) and not zeroOrDenormal(1).
  - IEEE rounding and denormal detection are not modelled.
- **NetworkHelper rewrites in AddTransformation.** The graph changes of these are not modelled:
  - `foldDequantization`, `normalizeDequantization`, `separateInStandaloneBranch`;
  - `swapMultiplyAndAdd`, `createEmptyValues`;
  - `updateOutput` and the final `foldDequantization` (add.cpp:235-240).

  As a result:
  - the `return false` at add.cpp:137 leaves the model graph unchanged, whereas the source first folds the dequantisation;
  - dequantisation constants are per-tensor scalars (`real`);
  - `createEmptyValues` gives shift 0 and scale 1.
- LptAdd.BroadcastSub: constant folding broadcasts only a single value against a tensor. General numpy broadcasting of `fold` is not modelled.
- **TypeRelaxed output types.** `TypeRelaxed` types and `TemporaryReplaceOutputType` are not modelled. The model gives each new node the output type its `TypeRelaxed` constructor names. The Subtracts of fuseWithSubtract and replaceToSubtract, and the final Multiply, carry the replaced node's element type. The Add built around the full path is F32 (add.cpp:221-222).
- **Runtime-info and provenance copying.** `copy_runtime_info` and `NetworkHelper::copyInfo` are not modelled.
- Names and ids of created nodes are `""`. Only the friendly names the sources set (new FakeQuantize, Gemm and FC renames, bias Add) are modelled.
- PullTransposeThroughFQ.PullTransposeThroughFQUp: the `|perm| ≥ 2` precondition is needed, because the source indexes `perm_val[1]` unchecked.
  - It also takes `Topological` as a precondition (graphs are acyclic).
  - `make_try_fold` is modelled as always creating a Transpose node, never folding a constant.
- **The Model Optimizer port library.** The `mo.graph` port library is not part of the sources. Its semantics are assumed:
  - an in-port has one incoming edge;
  - `set_source` moves all destinations of an output;
  - `insert_op_on_input_port` puts the new op between the port and its source, with the value as a Const on the op's port 1;
  - `insert_node` puts the new node after an output and moves all former destinations to it.
- MatMulNormalizer.FullyConnectedDecompose: on Failure (a Python assertion or attribute error) the partially rewritten graph is not specified beyond the iff of the error condition.
  - The FrontReplacementSubgraph matcher loop that calls it for every FullyConnected node is not modelled.
- MatMulNormalizer.AsMatMul: the default attributes MatMul.update_node_stat adds beyond op, type and the given flags are not modelled.
- MatMulNormalizer.GemmDecomposer: it requires every Gemm's name, alpha and beta attributes to have the Python types the pass reads. The order of `get_op_nodes` is taken as index order. Beyond the fact that every inserted node is a Mul, Const or Add, its contract does not describe the inserted alpha Mul, bias Add and beta Mul nodes or their inputs, because those inputs move as later Gemms are rewritten. `GemmOne` states them exactly for each Gemm.
- Attribute values that numpy holds as arrays are single numbers or integer lists. `math.isclose` is modelled with its default relative tolerance 1e-9 and zero absolute tolerance.
- **Preprocessing helpers.** The layout helpers `find_permutation`, `apply_permutation`, `get_and_check_*_idx`, `has_*` and `channels_idx` are not part of this model. They are supplied through the `Helpers` parameter.
  - The numeric semantics of Divide, Subtract, Interpolate, NV12toRGB/BGR and Convert are not modelled.
  - Channel reversal is shown on the sequence of channel slices.
- **CPU plugin hardware and I/O code.** These are not modelled:
  - CPUID and `hasAVX512`, so AVX-512 availability is a parameter;
  - `GetMetric`, the ExecutorManager, ImportNetwork deserialisation and ITT;
  - the float stream-count heuristic;
  - the MKLDNN node factory, which is the `creatable` flag of each transformed op;
  - MVN6 and NormalizeL2 vetoes, which call `isSupportedOperation` bodies that are not part of this model.
- CpuPlugin.QueryNetwork:
  - it requires every Constant and Parameter to have a consumer and every Result a producer;
  - the source dereferences the first consumer unchecked;
  - the hash-set iteration order of the erase loop does not affect the result and is not modelled.
- GatherND.Evaluate: the reference implementation is not part of this model.
  - An out-of-range index is a Failure.
  - The concrete value vectors of the test are stated through the slice lemmas and the negative-index vector, not element by element, because the literal evaluations are too expensive to prove.
- validate.hpp, static_shape.hpp, ocl.hpp, test_convolution.py, config.cpp and const_folding_for_if.cpp are not part of this model: they are declarations, foreign calls or tests of code that is not shown.
