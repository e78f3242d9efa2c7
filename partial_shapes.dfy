/** Partially known tensor shapes (ngraph's Dimension and PartialShape). */
module PartialShapes {
  import opened Wrappers

  // Error messages
  const DynamicShapeError := "get_shape() called on a dynamic shape"
  const DynamicRankError := "get_length() called on a dynamic rank"

  datatype Dim = Static(length: nat) | DynamicDim

  /** A shape whose rank may be unknown, and whose known rank may hold unknown dims. */
  datatype PartialShape = DynamicRank | Ranked(dims: seq<Dim>)

  predicate IsStaticShape(ps: PartialShape) {
    ps.Ranked? && forall i :: 0 <= i < |ps.dims| ==> ps.dims[i].Static?
  }

  /** `get_shape()`: the concrete dims, raising an error when any of them is unknown. */
  function GetShape(ps: PartialShape): (r: Result<seq<nat>>)
    ensures r.Success? <==> IsStaticShape(ps)
    ensures r.Success? ==> |r.value| == |ps.dims| && forall i :: 0 <= i < |ps.dims| ==> ps.dims[i] == Static(r.value[i])
  {
    if IsStaticShape(ps) then Success(seq(|ps.dims|, i requires 0 <= i < |ps.dims| => ps.dims[i].length))
    else Failure(DynamicShapeError)
  }

  /** `rank().get_length()`: raises an error for a dynamic rank. */
  function RankLength(ps: PartialShape): (r: Result<nat>)
    ensures r.Success? <==> ps.Ranked?
    ensures r.Success? ==> r.value == |ps.dims|
  {
    if ps.Ranked? then Success(|ps.dims|) else Failure(DynamicRankError)
  }

  /** `shape_size`: the number of elements of a tensor of static shape s. */
  function Product(s: seq<nat>): nat {
    if s == [] then 1 else s[0] * Product(s[1..])
  }

  /** A fully static shape built from concrete dims. */
  function FromShape(s: seq<nat>): (ps: PartialShape)
    ensures IsStaticShape(ps) && GetShape(ps) == Success(s)
  {
    var ps := Ranked(seq(|s|, i requires 0 <= i < |s| => Static(s[i])));
    assert GetShape(ps).value == s;
    ps
  }
}
