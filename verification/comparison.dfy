/** Classification of one (ground truth, test) voxel pair. */
module Comparison {
  import opened Voxels

  datatype EvaluationMode =
    | EvaluateAllVoxels
    | IgnoreErrorBehindTestSurface
    | IgnoreErrorBehindGtSurface
    | IgnoreErrorBehindAllSurfaces

  datatype EvaluationResult = NoOverlap | Ignored | Evaluated

  /** The verdict on one voxel pair together with its signed error. */
  datatype PairError = PairError(result: EvaluationResult, error: real)

  predicate IgnoresBehindTestSurface(mode: EvaluationMode) {
    mode == IgnoreErrorBehindTestSurface || mode == IgnoreErrorBehindAllSurfaces
  }

  predicate IgnoresBehindGtSurface(mode: EvaluationMode) {
    mode == IgnoreErrorBehindGtSurface || mode == IgnoreErrorBehindAllSurfaces
  }

  /** The decision table for a pair observed in both layers, written out mode
      by mode rather than through the two flags the comparator derives. */
  function Decision(mode: EvaluationMode, gtDistance: real, testDistance: real): EvaluationResult {
    match mode
    case EvaluateAllVoxels => Evaluated
    case IgnoreErrorBehindTestSurface => if testDistance < 0.0 then Ignored else Evaluated
    case IgnoreErrorBehindGtSurface => if gtDistance < 0.0 then Ignored else Evaluated
    case IgnoreErrorBehindAllSurfaces =>
      if testDistance < 0.0 || gtDistance < 0.0 then Ignored else Evaluated
  }

  /** Compares two voxels at the same location. Unobserved pairs do not
      overlap; pairs behind a surface the mode shields are ignored; the rest
      are evaluated with error sdf(test) - sdf(gt). */
  function ComputeVoxelError(gt: Voxel, test: Voxel, mode: EvaluationMode): (r: PairError)
    ensures r.result == NoOverlap <==> !IsObserved(gt) || !IsObserved(test)
    ensures IsObserved(gt) && IsObserved(test) ==>
              r.result == Decision(mode, gt.distance, test.distance)
    ensures r.result != Evaluated ==> r.error == 0.0
    ensures r.result == Evaluated ==> r.error == test.distance - gt.distance
  {
    if !IsObserved(gt) || !IsObserved(test) then
      PairError(NoOverlap, 0.0)
    else
      var ignoreBehindTest := IgnoresBehindTestSurface(mode);
      var ignoreBehindGt := IgnoresBehindGtSurface(mode);
      if (ignoreBehindTest && test.distance < 0.0) || (ignoreBehindGt && gt.distance < 0.0) then
        PairError(Ignored, 0.0)
      else
        PairError(Evaluated, Sdf(test) - Sdf(gt))
  }

  /** A voxel that fails the kind-specific observation test (weight at most
      1e-6 for TSDF, flag unset for ESDF) makes its pair non-overlapping with
      error 0, whatever the other voxel and the mode. */
  lemma UnobservedVoxelNeverOverlaps(gt: Voxel, test: Voxel, mode: EvaluationMode)
    requires || (gt.Tsdf? && gt.weight <= 0.000001) || (gt.Esdf? && !gt.observed)
             || (test.Tsdf? && test.weight <= 0.000001) || (test.Esdf? && !test.observed)
    ensures ComputeVoxelError(gt, test, mode) == PairError(NoOverlap, 0.0)
  {
  }

  /** Conversely, two voxels that pass their kind's observation test (weight
      above 1e-6, flag set) always overlap: the pair is ignored or evaluated. */
  lemma ObservedVoxelsOverlap(gt: Voxel, test: Voxel, mode: EvaluationMode)
    requires (gt.Tsdf? && gt.weight > 0.000001) || (gt.Esdf? && gt.observed)
    requires (test.Tsdf? && test.weight > 0.000001) || (test.Esdf? && test.observed)
    ensures ComputeVoxelError(gt, test, mode).result != NoOverlap
  {
  }

  /** The mode that shields the same surfaces once the two layers trade places. */
  function Mirror(mode: EvaluationMode): (m: EvaluationMode)
    ensures IgnoresBehindTestSurface(m) <==> IgnoresBehindGtSurface(mode)
    ensures IgnoresBehindGtSurface(m) <==> IgnoresBehindTestSurface(mode)
  {
    match mode
    case EvaluateAllVoxels => EvaluateAllVoxels
    case IgnoreErrorBehindTestSurface => IgnoreErrorBehindGtSurface
    case IgnoreErrorBehindGtSurface => IgnoreErrorBehindTestSurface
    case IgnoreErrorBehindAllSurfaces => IgnoreErrorBehindAllSurfaces
  }

  /** Swapping the two voxels and mirroring the mode keeps the verdict and
      negates the error; under EvaluateAllVoxels the mode is its own mirror. */
  lemma SwappedPairNegatesError(gt: Voxel, test: Voxel, mode: EvaluationMode)
    ensures ComputeVoxelError(test, gt, Mirror(mode)).result == ComputeVoxelError(gt, test, mode).result
    ensures ComputeVoxelError(test, gt, Mirror(mode)).error == -ComputeVoxelError(gt, test, mode).error
    ensures Mirror(EvaluateAllVoxels) == EvaluateAllVoxels
  {
  }

  /** A voxel compared with itself is never evaluated with a non-zero error. */
  lemma SelfComparisonHasNoError(v: Voxel, mode: EvaluationMode)
    ensures ComputeVoxelError(v, v, mode).error == 0.0
  {
  }
}
