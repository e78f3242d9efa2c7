/**
 * The preprocessing and postprocessing step lists: each `add_*` call appends one action;
 * applying an action to the current input nodes builds new nodes and may update the
 * context's layout or colour format.
 */
module PreprocessSteps {
  import opened Wrappers
  import opened ElementTypes
  import opened PartialShapes

  // Error messages
  const ChannelsIndexError := "channels index outside the shape"
  const MeanValuesSizeError := "Number of channels and mean/values size mismatch"
  const EmptyInputError := "Internal error: empty input"
  const MultiPlaneError := "multi-plane input: convert the image to RGB/BGR with 'convert_color' first"
  const EmptyElementTypeError := "Internal error: Can't set element type for empty input."
  const DynamicSourceTypeError := "Can't insert 'convert_element_type' for dynamic source tensor type."
  const MultiPlaneResizeError := "Can't resize multi-plane input"
  const ResizeLayoutError := "Can't add resize for layout without W/H specified. Use 'set_layout' API to define layout of image data, like `NCHW`"
  const ResizeDynamicShapeError := "Resize operation is not supported for fully dynamic shape"
  const ResizeUnspecifiedError := "Resize is not fully specified while target network shape is dynamic"
  const MultiPlaneReverseError := "Internal error: can't reverse channels for multi-plane inputs"
  const NV12SinglePlaneInputsError := "Internal error: single plane NV12 image can't have multiple inputs"
  const NV12TargetError := "Unsupported conversion from NV12"
  const NV12TwoPlanesInputsError := "Internal error: two-plane NV12 image must have exactly two inputs"
  const SourceColorError := "Source color format is not convertible to any other"
  const DynamicTargetTypeError := "Can't convert to dynamic/unknown element type, consider using of InputTensorInfo::set_element_type"

  // ---------------------------------------------------------------------------
  // Values

  /** A tensor layout such as "NCHW"; the empty layout means "not given". */
  datatype Layout = Layout(text: string) {
    predicate Empty() { text == "" }
  }

  datatype ColorFormat = UndefinedColor | NV12SinglePlane | NV12TwoPlanes | RGB | BGR

  datatype ResizeAlgorithm = ResizeLinear | ResizeCubic | ResizeNearest
  datatype InterpolateMode = Nearest | Linear | Cubic

  /** The nodes an action builds on top of the input planes. */
  datatype Node =
    | Plane(index: nat)
    | F32Constant(shape: seq<nat>, values: seq<real>)
    | Divide(lhs: Node, rhs: Node)
    | Subtract(lhs: Node, rhs: Node)
    | Convert(arg: Node, to: ElementType)
    | Interpolate(arg: Node, mode: InterpolateMode, height: int, width: int, heightAxis: nat, widthAxis: nat)
    | Transpose(arg: Node, perm: seq<int>)
    | NV12toRGB(planes: seq<Node>)
    | NV12toBGR(planes: seq<Node>)
    | ReverseChannelsGather(arg: Node, channelsAxis: int)

  /**
   * Helpers the actions call whose bodies are not part of this model: the layout utilities
   * and the element type and shape of a node.
   */
  datatype Helpers = Helpers(
    findPermutation: (Layout, Option<nat>, Layout) -> seq<int>,
    applyPermutation: (Layout, seq<nat>) -> Layout,
    hasHeight: Layout -> bool,
    hasWidth: Layout -> bool,
    hasChannels: Layout -> bool,
    channelsIdx: Layout -> int,
    checkedChannelsIdx: (Layout, PartialShape) -> Result<nat>,
    checkedHeightIdx: (Layout, PartialShape) -> Result<nat>,
    checkedWidthIdx: (Layout, PartialShape) -> Result<nat>,
    elementTypeOf: Node -> ElementType,
    shapeOf: Node -> PartialShape)

  function RankOf(ps: PartialShape): Option<nat> {
    if ps.Ranked? then Some(|ps.dims|) else None
  }

  /** The outcome of a preprocessing action: the new nodes and whether the tensor changed. */
  type StepResult = Result<(seq<Node>, bool)>

  // ---------------------------------------------------------------------------
  // Contexts

  class PreprocessingContext {
    var layout: Layout
    var colorFormat: ColorFormat
    const targetLayout: Layout
    const targetElementType: ElementType
    const networkShape: PartialShape
    const networkWidth: nat
    const networkHeight: nat

    constructor (layout: Layout, colorFormat: ColorFormat, targetLayout: Layout, targetElementType: ElementType,
                 networkShape: PartialShape, networkWidth: nat, networkHeight: nat)
      ensures this.layout == layout && this.colorFormat == colorFormat
      ensures this.targetLayout == targetLayout && this.targetElementType == targetElementType
      ensures this.networkShape == networkShape && this.networkWidth == networkWidth && this.networkHeight == networkHeight
    {
      this.layout := layout;
      this.colorFormat := colorFormat;
      this.targetLayout := targetLayout;
      this.targetElementType := targetElementType;
      this.networkShape := networkShape;
      this.networkWidth := networkWidth;
      this.networkHeight := networkHeight;
    }
  }

  class PostprocessingContext {
    var layout: Layout
    const targetLayout: Layout
    const targetElementType: ElementType

    constructor (layout: Layout, targetLayout: Layout, targetElementType: ElementType)
      ensures this.layout == layout && this.targetLayout == targetLayout && this.targetElementType == targetElementType
    {
      this.layout := layout;
      this.targetLayout := targetLayout;
      this.targetElementType := targetElementType;
    }
  }

  // ---------------------------------------------------------------------------
  // Mean and scale

  /**
   * The shape of a per-channel mean/scale constant: the input's rank, all ones except the
   * channels axis, which holds the number of values; a static channels dim must match it.
   */
  function MeanScaleShape(shape: PartialShape, valuesSize: nat, layout: Layout, h: Helpers): (r: Result<seq<nat>>)
    ensures r.Success? ==>
      && shape.Ranked? && |r.value| == |shape.dims|
      && h.checkedChannelsIdx(layout, shape).Success?
      && var c := h.checkedChannelsIdx(layout, shape).value;
         c < |r.value| && r.value[c] == valuesSize &&
         (shape.dims[c].Static? ==> shape.dims[c].length == valuesSize) &&
         forall i :: 0 <= i < |r.value| && i != c ==> r.value[i] == 1
    ensures shape.Ranked? && h.checkedChannelsIdx(layout, shape).Success? ==>
      var c := h.checkedChannelsIdx(layout, shape).value;
      (r.Success? <==> c < |shape.dims| && (shape.dims[c].Static? ==> shape.dims[c].length == valuesSize))
  {
    var c :- h.checkedChannelsIdx(layout, shape);
    var rank :- RankLength(shape);
    if c >= rank then Failure(ChannelsIndexError)
    else if shape.dims[c].Static? && shape.dims[c].length != valuesSize then
      Failure(MeanValuesSizeError)
    else
      var v: seq<nat> := seq(rank, i requires 0 <= i < rank => if i == c then valuesSize else 1);
      Success(v)
  }

  /** The constant shape used by mean and scale: {1} for a single value. */
  function MeanScaleConstantShape(node: Node, values: seq<real>, layout: Layout, h: Helpers): (r: Result<seq<nat>>)
    ensures |values| == 1 ==> r == Success([1])
    ensures |values| != 1 ==> r == MeanScaleShape(h.shapeOf(node), |values|, layout, h)
  {
    if |values| == 1 then Success([1]) else MeanScaleShape(h.shapeOf(node), |values|, layout, h)
  }

  /** Shared checks of the single-plane actions. */
  function SinglePlane(nodes: seq<Node>): (r: Result<Node>)
    ensures r.Success? <==> |nodes| == 1
    ensures r.Success? ==> r.value == nodes[0]
  {
    if nodes == [] then Failure(EmptyInputError)
    else if |nodes| != 1 then Failure(MultiPlaneError)
    else Success(nodes[0])
  }

  /** `add_scale`: divide the single plane by the values. */
  function ApplyScale(values: seq<real>, nodes: seq<Node>, layout: Layout, h: Helpers): (r: StepResult)
    ensures r.Success? ==> |nodes| == 1
    ensures r.Success? ==> exists shape :: MeanScaleConstantShape(nodes[0], values, layout, h) == Success(shape) &&
                                          r.value == ([Divide(nodes[0], F32Constant(shape, values))], false)
    ensures |nodes| == 1 && MeanScaleConstantShape(nodes[0], values, layout, h).Success? ==> r.Success?
  {
    var node :- SinglePlane(nodes);
    var shape :- MeanScaleConstantShape(node, values, layout, h);
    Success(([Divide(node, F32Constant(shape, values))], false))
  }

  /** `add_mean`: subtract the values from the single plane. */
  function ApplyMean(values: seq<real>, nodes: seq<Node>, layout: Layout, h: Helpers): (r: StepResult)
    ensures r.Success? ==> |nodes| == 1
    ensures r.Success? ==> exists shape :: MeanScaleConstantShape(nodes[0], values, layout, h) == Success(shape) &&
                                          r.value == ([Subtract(nodes[0], F32Constant(shape, values))], false)
    ensures |nodes| == 1 && MeanScaleConstantShape(nodes[0], values, layout, h).Success? ==> r.Success?
  {
    var node :- SinglePlane(nodes);
    var shape :- MeanScaleConstantShape(node, values, layout, h);
    Success(([Subtract(node, F32Constant(shape, values))], false))
  }

  // ---------------------------------------------------------------------------
  // Element type conversion

  /** The requested type, or the context's target type when none was given. */
  function EffectiveType(requested: ElementType, target: ElementType): ElementType {
    if requested == Undefined then target else requested
  }

  /**
   * The outcome of `add_convert`: it succeeds exactly when there are planes and all have a
   * static type; then each plane is converted to the effective type when its own differs,
   * and the flag tells whether any was.
   */
  predicate TypeConverted(requested: ElementType, nodes: seq<Node>, target: ElementType, h: Helpers, r: StepResult) {
    && (r.Success? <==> nodes != [] && forall i :: 0 <= i < |nodes| ==> IsStatic(h.elementTypeOf(nodes[i])))
    && (r.Success? ==>
          var t := EffectiveType(requested, target);
          && |r.value.0| == |nodes|
          && (forall i :: 0 <= i < |nodes| ==> r.value.0[i] == ConvertedPlane(nodes[i], t, h))
          && (r.value.1 <==> exists i :: 0 <= i < |nodes| && h.elementTypeOf(nodes[i]) != t))
  }

  /** What `add_convert` makes of one plane. */
  function ConvertedPlane(node: Node, t: ElementType, h: Helpers): Node {
    if t != h.elementTypeOf(node) then Convert(node, t) else node
  }

  /**
   * `add_convert`: every plane whose type differs from the effective type gets a Convert;
   * the flag tells whether any was added. A plane of dynamic type is an error.
   */
  method ApplyConvert(requested: ElementType, nodes: seq<Node>, target: ElementType, h: Helpers) returns (r: StepResult)
    ensures TypeConverted(requested, nodes, target, h, r)
  {
    if nodes == [] {
      return Failure(EmptyElementTypeError);
    }
    var res: seq<Node> := [];
    var t := requested;
    if t == Undefined {
      t := target;
    }
    assert t == EffectiveType(requested, target);
    var convertAdded := false;
    var i := 0;
    while i < |nodes|
      invariant 0 <= i <= |nodes|
      invariant |res| == i
      invariant forall j :: 0 <= j < i ==> IsStatic(h.elementTypeOf(nodes[j]))
      invariant forall j :: 0 <= j < i ==> res[j] == ConvertedPlane(nodes[j], t, h)
      invariant convertAdded <==> exists j :: 0 <= j < i && h.elementTypeOf(nodes[j]) != t
    {
      var node := nodes[i];
      if !IsStatic(h.elementTypeOf(node)) {
        return Failure(DynamicSourceTypeError);
      }
      res := res + [ConvertedPlane(node, t, h)];
      if t != h.elementTypeOf(node) {
        convertAdded := true;
      }
      i := i + 1;
    }
    return Success((res, convertAdded));
  }

  // ---------------------------------------------------------------------------
  // Resize

  function ToMode(alg: ResizeAlgorithm): InterpolateMode {
    match alg
    case ResizeNearest => Nearest
    case ResizeCubic => Cubic
    case ResizeLinear => Linear
  }

  /**
   * `add_resize`: one Interpolate over the H and W axes of the layout. A negative target
   * height or width falls back to the network's, which then needs a static network rank.
   */
  function ApplyResize(alg: ResizeAlgorithm, dstHeight: int, dstWidth: int, nodes: seq<Node>, layout: Layout,
                       networkShape: PartialShape, networkHeight: nat, networkWidth: nat, h: Helpers): (r: StepResult)
    ensures r.Success? <==>
      && |nodes| == 1 && h.hasHeight(layout) && h.hasWidth(layout) && h.shapeOf(nodes[0]).Ranked?
      && h.checkedHeightIdx(layout, h.shapeOf(nodes[0])).Success?
      && h.checkedWidthIdx(layout, h.shapeOf(nodes[0])).Success?
      && ((dstHeight < 0 || dstWidth < 0) ==> networkShape.Ranked?)
    ensures r.Success? ==>
      r.value == ([Interpolate(nodes[0], ToMode(alg),
                               if dstHeight < 0 then networkHeight else dstHeight,
                               if dstWidth < 0 then networkWidth else dstWidth,
                               h.checkedHeightIdx(layout, h.shapeOf(nodes[0])).value,
                               h.checkedWidthIdx(layout, h.shapeOf(nodes[0])).value)], true)
  {
    if |nodes| != 1 then Failure(MultiPlaneResizeError)
    else if !(h.hasHeight(layout) && h.hasWidth(layout)) then
      Failure(ResizeLayoutError)
    else if !h.shapeOf(nodes[0]).Ranked? then
      Failure(ResizeDynamicShapeError)
    else
      var heightIdx := h.checkedHeightIdx(layout, h.shapeOf(nodes[0]));
      var widthIdx := h.checkedWidthIdx(layout, h.shapeOf(nodes[0]));
      if heightIdx.Failure? then Failure(heightIdx.error)
      else if widthIdx.Failure? then Failure(widthIdx.error)
      else if (dstHeight < 0 || dstWidth < 0) && !networkShape.Ranked? then
        Failure(ResizeUnspecifiedError)
      else
        var newWidth := if dstWidth < 0 then networkWidth else dstWidth;
        var newHeight := if dstHeight < 0 then networkHeight else dstHeight;
        Success(([Interpolate(nodes[0], ToMode(alg), newHeight, newWidth, heightIdx.value, widthIdx.value)], true))
  }

  // ---------------------------------------------------------------------------
  // Layout conversion

  /**
   * The outcome of `add_convert_layout(layout)` taking the context layout from `before` to
   * `after`: an error unless there is exactly one plane; otherwise a Transpose by the
   * permutation to the destination layout, or nothing to do when that permutation is empty.
   */
  predicate LayoutConverted(layout: Layout, nodes: seq<Node>, before: Layout, targetLayout: Layout, h: Helpers,
                            r: StepResult, after: Layout) {
    && (|nodes| != 1 ==> r.Failure? && after == before)
    && (|nodes| == 1 ==>
          var dst := if layout.Empty() then targetLayout else layout;
          var perm := h.findPermutation(before, RankOf(h.shapeOf(nodes[0])), dst);
          if perm == [] then
            r == Success((nodes, false)) && after == (if layout.Empty() then before else layout)
          else
            r == Success(([Transpose(nodes[0], perm)], true)) && after == dst)
  }

  /**
   * `add_convert_layout(layout)`: transpose to the given layout (or the target layout when
   * none is given). With nothing to permute the nodes pass through, and only an explicitly
   * given layout is recorded.
   */
  method ApplyConvertLayout(layout: Layout, nodes: seq<Node>, ctx: PreprocessingContext, h: Helpers) returns (r: StepResult)
    modifies ctx
    ensures ctx.colorFormat == old(ctx.colorFormat)
    ensures LayoutConverted(layout, nodes, old(ctx.layout), ctx.targetLayout, h, r, ctx.layout)
  {
    var single := SinglePlane(nodes);
    if single.Failure? {
      return Failure(single.error);
    }
    var dstLayout := if layout.Empty() then ctx.targetLayout else layout;
    var permutation := h.findPermutation(ctx.layout, RankOf(h.shapeOf(nodes[0])), dstLayout);
    if permutation == [] {
      if !layout.Empty() {
        ctx.layout := layout;
      }
      return Success((nodes, false));
    }
    ctx.layout := dstLayout;
    return Success(([Transpose(nodes[0], permutation)], true));
  }

  /**
   * The outcome of `add_convert_layout(dims)` taking the context layout from `before` to
   * `after`: an error unless there is exactly one plane; otherwise a Transpose by dims and
   * the layout permuted by dims.
   */
  predicate LayoutDimsConverted(dims: seq<nat>, nodes: seq<Node>, before: Layout, h: Helpers, r: StepResult, after: Layout) {
    && (|nodes| != 1 ==> r.Failure? && after == before)
    && (|nodes| == 1 ==> r == Success(([Transpose(nodes[0], dims)], true)) && after == h.applyPermutation(before, dims))
  }

  /** `add_convert_layout(dims)` when applied: transpose by dims and permute the context layout. */
  method ApplyConvertLayoutDims(dims: seq<nat>, nodes: seq<Node>, ctx: PreprocessingContext, h: Helpers) returns (r: StepResult)
    modifies ctx
    ensures ctx.colorFormat == old(ctx.colorFormat)
    ensures LayoutDimsConverted(dims, nodes, old(ctx.layout), h, r, ctx.layout)
  {
    var single := SinglePlane(nodes);
    if single.Failure? {
      return Failure(single.error);
    }
    var newLayout := h.applyPermutation(ctx.layout, dims);
    ctx.layout := newLayout;
    return Success(([Transpose(nodes[0], dims)], true));
  }

  // ---------------------------------------------------------------------------
  // Channel reversal

  /** The values of Range(start, stop, -1): start, start - 1, ..., stop + 1. */
  function DescendingRange(start: int, stop: int): (r: seq<int>)
    ensures |r| == if start > stop then start - stop else 0
    decreases start - stop
  {
    if start <= stop then [] else [start] + DescendingRange(start - 1, stop)
  }

  /** The gather indices for c channels: Range(c - 1, -1, -1). */
  function ChannelOrder(c: nat): seq<int> {
    DescendingRange(c as int - 1, -1)
  }

  lemma {:induction false} DescendingRangeAt(start: int, stop: int, i: nat)
    requires i < |DescendingRange(start, stop)|
    ensures DescendingRange(start, stop)[i] == start - i
    decreases start - stop
  {
    if i > 0 {
      DescendingRangeAt(start - 1, stop, i - 1);
    }
  }

  /** The channel order is [c - 1, ..., 0]: every index of the channel axis once, reversed. */
  lemma {:induction false} ChannelOrderReverses(c: nat)
    ensures |ChannelOrder(c)| == c
    ensures forall i :: 0 <= i < c ==> ChannelOrder(c)[i] == c - 1 - i
  {
    forall i | 0 <= i < c
      ensures ChannelOrder(c)[i] == c - 1 - i
    {
      DescendingRangeAt(c as int - 1, -1, i);
    }
  }

  /** Gather along one axis, viewed on the sequence of channel slices. */
  function GatherChannels<T>(channels: seq<T>, order: seq<int>): (r: seq<T>)
    requires forall i :: 0 <= i < |order| ==> 0 <= order[i] < |channels|
    ensures |r| == |order|
  {
    seq(|order|, i requires 0 <= i < |order| => channels[order[i]])
  }

  /** Reversing the channels twice gives the original channels back. */
  lemma {:induction false} ReverseChannelsTwiceIsIdentity<T>(channels: seq<T>)
    ensures (ChannelOrderReverses(|channels|);
             var order := ChannelOrder(|channels|);
             GatherChannels(GatherChannels(channels, order), order) == channels)
  {
    ChannelOrderReverses(|channels|);
  }

  /** `reverse_channels`: one Gather with indices Range(C - 1, -1, -1) on the channels axis. */
  function ReverseChannels(nodes: seq<Node>, layout: Layout, h: Helpers): (r: StepResult)
    ensures r.Success? <==> |nodes| == 1 && h.hasChannels(layout)
    ensures r.Success? ==> r.value == ([ReverseChannelsGather(nodes[0], h.channelsIdx(layout))], false)
  {
    if |nodes| != 1 then Failure(MultiPlaneReverseError)
    else if !h.hasChannels(layout) then Failure("Layout " + layout.text + " doesn't have `channels` dimension")
    else Success(([ReverseChannelsGather(nodes[0], h.channelsIdx(layout))], false))
  }

  // ---------------------------------------------------------------------------
  // Colour conversion

  predicate IsRgbOrBgr(c: ColorFormat) {
    c == RGB || c == BGR
  }

  /**
   * The nodes `add_convert_color` builds from colour format src: nothing for the same format;
   * NV12 (one plane or two) converts only to RGB or BGR; RGB and BGR swap by reversing the
   * channels; every other source is an error.
   */
  function ConvertColor(src: ColorFormat, dst: ColorFormat, nodes: seq<Node>, layout: Layout, h: Helpers): (r: StepResult)
    ensures src == dst ==> r == Success((nodes, false))
    ensures src != dst && src == NV12SinglePlane ==>
      (r.Success? <==> |nodes| == 1 && IsRgbOrBgr(dst)) &&
      (r.Success? ==> r.value == ([if dst == RGB then NV12toRGB([nodes[0]]) else NV12toBGR([nodes[0]])], true))
    ensures src != dst && src == NV12TwoPlanes ==>
      (r.Success? <==> |nodes| == 2 && IsRgbOrBgr(dst)) &&
      (r.Success? ==> r.value == ([if dst == RGB then NV12toRGB(nodes) else NV12toBGR(nodes)], true))
    ensures src != dst && IsRgbOrBgr(src) && IsRgbOrBgr(dst) ==> r == ReverseChannels(nodes, layout, h)
    ensures src != dst && (src == UndefinedColor || (IsRgbOrBgr(src) && !IsRgbOrBgr(dst))) ==> r.Failure?
  {
    if src == dst then Success((nodes, false))
    else if src == NV12SinglePlane then
      if |nodes| != 1 then Failure(NV12SinglePlaneInputsError)
      else if dst == RGB then Success(([NV12toRGB([nodes[0]])], true))
      else if dst == BGR then Success(([NV12toBGR([nodes[0]])], true))
      else Failure(NV12TargetError)
    else if src == NV12TwoPlanes then
      if |nodes| != 2 then Failure(NV12TwoPlanesInputsError)
      else if dst == RGB then Success(([NV12toRGB(nodes)], true))
      else if dst == BGR then Success(([NV12toBGR(nodes)], true))
      else Failure(NV12TargetError)
    else if IsRgbOrBgr(src) && IsRgbOrBgr(dst) then ReverseChannels(nodes, layout, h)
    else Failure(SourceColorError)
  }

  /** `add_convert_color` when applied: on success the context's colour format becomes dst. */
  method ApplyConvertColor(dst: ColorFormat, nodes: seq<Node>, ctx: PreprocessingContext, h: Helpers) returns (r: StepResult)
    modifies ctx
    ensures r == ConvertColor(old(ctx.colorFormat), dst, nodes, old(ctx.layout), h)
    ensures ctx.layout == old(ctx.layout)
    ensures ctx.colorFormat == if r.Success? then dst else old(ctx.colorFormat)
  {
    r := ConvertColor(ctx.colorFormat, dst, nodes, ctx.layout, h);
    if r.Success? {
      ctx.colorFormat := dst;
    }
  }

  /** From NV12 a single conversion reaches RGB or BGR and nothing else. */
  lemma {:induction false} NV12ReachesOnlyRgbOrBgr(src: ColorFormat, dst: ColorFormat, nodes: seq<Node>, layout: Layout, h: Helpers)
    requires src == NV12SinglePlane || src == NV12TwoPlanes
    requires ConvertColor(src, dst, nodes, layout, h).Success?
    ensures dst == src || IsRgbOrBgr(dst)
  {
  }

  /**
   * Converting RGB to BGR is one channel-reversing Gather on the channels axis, and
   * converting the result back to RGB adds a second one on the same axis, which by
   * ReverseChannelsTwiceIsIdentity restores the channel order.
   */
  lemma {:induction false} RgbBgrRoundTrip(srcNodes: seq<Node>, layout: Layout, h: Helpers)
    requires |srcNodes| == 1 && h.hasChannels(layout)
    ensures ConvertColor(RGB, BGR, srcNodes, layout, h).Success?
    ensures var out := ConvertColor(RGB, BGR, srcNodes, layout, h).value.0;
            && out == [ReverseChannelsGather(srcNodes[0], h.channelsIdx(layout))]
            && ConvertColor(BGR, RGB, out, layout, h) == Success(([ReverseChannelsGather(out[0], h.channelsIdx(layout))], false))
  {
  }

  // ---------------------------------------------------------------------------
  // The step lists

  datatype PreAction =
    | ScaleAction(values: seq<real>)
    | MeanAction(values: seq<real>)
    | ConvertElementTypeAction(elementType: ElementType)
    | ResizeAction(alg: ResizeAlgorithm, height: int, width: int)
    | ConvertLayoutAction(layout: Layout)
    | ConvertLayoutDimsAction(dims: seq<nat>)
    | ConvertColorAction(dst: ColorFormat)
    | ReverseChannelsAction

  /** PreStepsList: the recorded actions and the dims of every dims-based layout conversion, newest first. */
  class PreStepsList {
    var actions: seq<PreAction>
    var layoutConverts: seq<seq<nat>>

    constructor ()
      ensures actions == [] && layoutConverts == []
    {
      actions := [];
      layoutConverts := [];
    }

    method AddScale(values: seq<real>)
      modifies this
      ensures actions == old(actions) + [ScaleAction(values)] && layoutConverts == old(layoutConverts)
    {
      actions := actions + [ScaleAction(values)];
    }

    method AddMean(values: seq<real>)
      modifies this
      ensures actions == old(actions) + [MeanAction(values)] && layoutConverts == old(layoutConverts)
    {
      actions := actions + [MeanAction(values)];
    }

    method AddConvert(t: ElementType)
      modifies this
      ensures actions == old(actions) + [ConvertElementTypeAction(t)] && layoutConverts == old(layoutConverts)
    {
      actions := actions + [ConvertElementTypeAction(t)];
    }

    method AddResize(alg: ResizeAlgorithm, dstHeight: int, dstWidth: int)
      modifies this
      ensures actions == old(actions) + [ResizeAction(alg, dstHeight, dstWidth)] && layoutConverts == old(layoutConverts)
    {
      actions := actions + [ResizeAction(alg, dstHeight, dstWidth)];
    }

    method AddConvertLayout(layout: Layout)
      modifies this
      ensures actions == old(actions) + [ConvertLayoutAction(layout)] && layoutConverts == old(layoutConverts)
    {
      actions := actions + [ConvertLayoutAction(layout)];
    }

    /** Empty dims record nothing; other dims go to the front of layoutConverts and append one action. */
    method AddConvertLayoutDims(dims: seq<nat>)
      modifies this
      ensures dims == [] ==> actions == old(actions) && layoutConverts == old(layoutConverts)
      ensures dims != [] ==> actions == old(actions) + [ConvertLayoutDimsAction(dims)] &&
                             layoutConverts == [dims] + old(layoutConverts)
    {
      if dims == [] {
        return;
      }
      layoutConverts := [dims] + layoutConverts;
      actions := actions + [ConvertLayoutDimsAction(dims)];
    }

    method AddConvertColor(dst: ColorFormat)
      modifies this
      ensures actions == old(actions) + [ConvertColorAction(dst)] && layoutConverts == old(layoutConverts)
    {
      actions := actions + [ConvertColorAction(dst)];
    }

    method AddReverseChannels()
      modifies this
      ensures actions == old(actions) + [ReverseChannelsAction] && layoutConverts == old(layoutConverts)
    {
      actions := actions + [ReverseChannelsAction];
    }
  }

  /** Applies one recorded preprocessing action. */
  method ApplyPreAction(action: PreAction, nodes: seq<Node>, ctx: PreprocessingContext, h: Helpers) returns (r: StepResult)
    modifies ctx
    ensures action.ScaleAction? ==> r == ApplyScale(action.values, nodes, old(ctx.layout), h) && ctx.layout == old(ctx.layout)
    ensures action.MeanAction? ==> r == ApplyMean(action.values, nodes, old(ctx.layout), h) && ctx.layout == old(ctx.layout)
    ensures action.ResizeAction? ==>
      r == ApplyResize(action.alg, action.height, action.width, nodes, old(ctx.layout), ctx.networkShape, ctx.networkHeight, ctx.networkWidth, h)
    ensures action.ReverseChannelsAction? ==> r == ReverseChannels(nodes, old(ctx.layout), h)
    ensures action.ConvertElementTypeAction? ==> TypeConverted(action.elementType, nodes, ctx.targetElementType, h, r)
    ensures action.ConvertLayoutAction? ==> LayoutConverted(action.layout, nodes, old(ctx.layout), ctx.targetLayout, h, r, ctx.layout)
    ensures action.ConvertLayoutDimsAction? ==> LayoutDimsConverted(action.dims, nodes, old(ctx.layout), h, r, ctx.layout)
    ensures action.ConvertColorAction? ==>
      && r == ConvertColor(old(ctx.colorFormat), action.dst, nodes, old(ctx.layout), h)
      && ctx.colorFormat == if r.Success? then action.dst else old(ctx.colorFormat)
    ensures !action.ConvertColorAction? ==> ctx.colorFormat == old(ctx.colorFormat)
    ensures !(action.ConvertLayoutAction? || action.ConvertLayoutDimsAction?) ==> ctx.layout == old(ctx.layout)
  {
    match action
    case ScaleAction(values) => r := ApplyScale(values, nodes, ctx.layout, h);
    case MeanAction(values) => r := ApplyMean(values, nodes, ctx.layout, h);
    case ConvertElementTypeAction(t) => r := ApplyConvert(t, nodes, ctx.targetElementType, h);
    case ResizeAction(alg, height, width) =>
      r := ApplyResize(alg, height, width, nodes, ctx.layout, ctx.networkShape, ctx.networkHeight, ctx.networkWidth, h);
    case ConvertLayoutAction(layout) => r := ApplyConvertLayout(layout, nodes, ctx, h);
    case ConvertLayoutDimsAction(dims) => r := ApplyConvertLayoutDims(dims, nodes, ctx, h);
    case ConvertColorAction(dst) => r := ApplyConvertColor(dst, nodes, ctx, h);
    case ReverseChannelsAction => r := ReverseChannels(nodes, ctx.layout, h);
  }

  // Postprocessing

  /** The outcome of a postprocessing action on the single output. */
  type PostResult = Result<(Node, bool)>

  /**
   * Postprocessing `add_convert`: nothing to do when the node already has the effective type;
   * otherwise converting to a dynamic or undefined type is an error (checked only then).
   */
  function PostConvert(requested: ElementType, node: Node, target: ElementType, h: Helpers): (r: PostResult)
    ensures EffectiveType(requested, target) == h.elementTypeOf(node) ==> r == Success((node, false))
    ensures EffectiveType(requested, target) != h.elementTypeOf(node) ==>
      var t := EffectiveType(requested, target);
      (r.Success? <==> t != Dynamic && t != Undefined) && (r.Success? ==> r.value == (Convert(node, t), true))
  {
    var t := EffectiveType(requested, target);
    if t == h.elementTypeOf(node) then Success((node, false))
    else if t == Dynamic || t == Undefined then
      Failure(DynamicTargetTypeError)
    else Success((Convert(node, t), true))
  }

  /** Postprocessing `add_convert_layout(layout)`. */
  method PostConvertLayout(layout: Layout, node: Node, ctx: PostprocessingContext, h: Helpers) returns (r: PostResult)
    modifies ctx
    ensures
      var dst := if layout.Empty() then ctx.targetLayout else layout;
      var perm := h.findPermutation(old(ctx.layout), RankOf(h.shapeOf(node)), dst);
      if perm == [] then
        r == Success((node, false)) && ctx.layout == (if layout.Empty() then old(ctx.layout) else layout)
      else
        r == Success((Transpose(node, perm), true)) && ctx.layout == dst
  {
    var dstLayout := if layout.Empty() then ctx.targetLayout else layout;
    var permutation := h.findPermutation(ctx.layout, RankOf(h.shapeOf(node)), dstLayout);
    if permutation == [] {
      if !layout.Empty() {
        ctx.layout := layout;
      }
      return Success((node, false));
    }
    ctx.layout := dstLayout;
    return Success((Transpose(node, permutation), true));
  }

  /** Postprocessing `add_convert_layout(dims)` when applied. */
  method PostConvertLayoutDims(dims: seq<nat>, node: Node, ctx: PostprocessingContext, h: Helpers) returns (r: PostResult)
    modifies ctx
    ensures r == Success((Transpose(node, dims), true))
    ensures ctx.layout == h.applyPermutation(old(ctx.layout), dims)
  {
    ctx.layout := h.applyPermutation(ctx.layout, dims);
    return Success((Transpose(node, dims), true));
  }

  datatype PostAction =
    | PostConvertElementTypeAction(elementType: ElementType)
    | PostConvertLayoutAction(layout: Layout)
    | PostConvertLayoutDimsAction(dims: seq<nat>)

  /** PostStepsList: the recorded postprocessing actions. */
  class PostStepsList {
    var actions: seq<PostAction>

    constructor ()
      ensures actions == []
    {
      actions := [];
    }

    method AddConvert(t: ElementType)
      modifies this
      ensures actions == old(actions) + [PostConvertElementTypeAction(t)]
    {
      actions := actions + [PostConvertElementTypeAction(t)];
    }

    method AddConvertLayout(layout: Layout)
      modifies this
      ensures actions == old(actions) + [PostConvertLayoutAction(layout)]
    {
      actions := actions + [PostConvertLayoutAction(layout)];
    }

    /** Empty dims record nothing. */
    method AddConvertLayoutDims(dims: seq<nat>)
      modifies this
      ensures actions == if dims == [] then old(actions) else old(actions) + [PostConvertLayoutDimsAction(dims)]
    {
      if dims == [] {
        return;
      }
      actions := actions + [PostConvertLayoutDimsAction(dims)];
    }
  }
}
