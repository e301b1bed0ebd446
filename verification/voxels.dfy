/** Per-voxel semantics the evaluator relies on: whether a voxel has been
    observed and its signed distance to the nearest surface. */
module Voxels {

  /** A TSDF voxel counts as observed once its weight exceeds 1e-6. */
  const ObservedWeightThreshold: real := 0.000001

  /** The two voxel kinds the evaluator is specialised for. Only the fields
      the evaluator reads are kept; colour and other payload are left out. */
  datatype Voxel =
    | Tsdf(distance: real, weight: real)
    | Esdf(distance: real, observed: bool)

  /** True if the voxel has been observed: by weight for a TSDF voxel, by
      its flag for an ESDF voxel. */
  predicate IsObserved(v: Voxel) {
    match v
    case Tsdf(_, weight) => weight > ObservedWeightThreshold
    case Esdf(_, observed) => observed
  }

  /** The observation test reads only the weight or the flag: the
      distance never matters, the weight threshold is strict, and raising a
      TSDF voxel's weight never makes it unobserved. */
  lemma ObservationTest(distance: real, otherDistance: real, weight: real, heavier: real, observed: bool)
    ensures IsObserved(Tsdf(distance, weight)) == IsObserved(Tsdf(otherDistance, weight))
    ensures IsObserved(Esdf(distance, observed)) == IsObserved(Esdf(otherDistance, observed)) == observed
    ensures !IsObserved(Tsdf(distance, ObservedWeightThreshold))
    ensures IsObserved(Tsdf(distance, weight)) && weight <= heavier ==> IsObserved(Tsdf(distance, heavier))
  {
  }

  /** Signed distance of the voxel; negative means behind the surface.
      Both kinds store it in their distance field. */
  function Sdf(v: Voxel): (d: real)
    ensures d == v.distance
  {
    match v
    case Tsdf(distance, _) => distance
    case Esdf(distance, _) => distance
  }

  datatype BlockIndex = BlockIndex(x: int, y: int, z: int)

  /** A sparse voxel map: allocated blocks by block index, each block a
      dense cube of voxels addressed by linear index. Only the blocks and the
      block edge length matter here; voxel size and origin are not modelled. */
  datatype Layer = Layer(voxelsPerSide: nat, blocks: map<BlockIndex, seq<Voxel>>)

  function VoxelsPerBlock(voxelsPerSide: nat): nat {
    voxelsPerSide * voxelsPerSide * voxelsPerSide
  }

  /** Every allocated block holds exactly voxelsPerSide³ voxels. */
  predicate WellFormed(layer: Layer) {
    forall b :: b in layer.blocks ==> |layer.blocks[b]| == VoxelsPerBlock(layer.voxelsPerSide)
  }

  /** Two layers the evaluator can compare: well formed, with the same block
      edge length. */
  predicate Compatible(gt: Layer, test: Layer) {
    WellFormed(gt) && WellFormed(test) && gt.voxelsPerSide == test.voxelsPerSide
  }

  /** The linear indices of a block's observed voxels. */
  function ObservedIndices(block: seq<Voxel>): set<int> {
    set i | 0 <= i < |block| && IsObserved(block[i])
  }

  /** The observed indices of a block are those of the block without its
      last voxel, plus that last index when its voxel is observed. */
  lemma ObservedIndicesOfLast(block: seq<Voxel>)
    requires |block| > 0
    ensures var last := |block| - 1;
            && last !in ObservedIndices(block[..last])
            && ObservedIndices(block)
                 == ObservedIndices(block[..last]) + (if IsObserved(block[last]) then {last} else {})
  {
    var last := |block| - 1;
    var prefix := block[..last];
    assert forall i :: 0 <= i < |prefix| ==> prefix[i] == block[i];
  }

  /** Number of observed voxels in a block: the size of its set of observed
      indices, counted one linear index at a time. */
  function CountObserved(block: seq<Voxel>): (r: nat)
    ensures r == |ObservedIndices(block)|
    ensures r <= |block|
    ensures r == 0 <==> forall i :: 0 <= i < |block| ==> !IsObserved(block[i])
    ensures r == |block| <==> forall i :: 0 <= i < |block| ==> IsObserved(block[i])
  {
    if |block| == 0 then
      assert ObservedIndices(block) == {};
      0
    else
      var prefix := block[..|block| - 1];
      assert forall i :: 0 <= i < |prefix| ==> prefix[i] == block[i];
      ObservedIndicesOfLast(block);
      CountObserved(prefix) + (if IsObserved(block[|block| - 1]) then 1 else 0)
  }

  /** Counting one more voxel of a block adds one if it is observed. */
  lemma CountObservedOneMore(block: seq<Voxel>, i: nat)
    requires i < |block|
    ensures CountObserved(block[..i + 1]) == CountObserved(block[..i]) + (if IsObserved(block[i]) then 1 else 0)
  {
    var longer := block[..i + 1];
    assert longer[..|longer| - 1] == block[..i];
    assert longer[|longer| - 1] == block[i];
  }
}
