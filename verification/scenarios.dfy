/** Worked examples: single-voxel blocks compared pair by pair, and the
    block-level split of three blocks between two layers. */
module Scenarios {
  import opened Voxels
  import opened Comparison
  import opened VerdictRuns
  import opened Tallies
  import opened Totals
  import opened Evaluation
  import opened Properties

  /** A layer with one block of edge length 1, at index b. */
  function SingleVoxelLayer(b: BlockIndex, v: Voxel): Layer {
    Layer(1, map[b := [v]])
  }

  /** A product with a non-zero factor is zero only if the other factor is. */
  lemma ZeroProduct(a: real, b: real)
    requires a * b == 0.0 && b != 0.0
    ensures a == 0.0
  {
    assert a == (a * b) / b;
  }

  /** The only root of the square of a non-negative number is that number. */
  lemma RootOfSquare(r: real, x: real)
    requires 0.0 <= x && IsRootOf(r, x * x)
    ensures r == x
  {
    var difference, sum := r - x, r + x;
    assert difference * sum == r * r - x * x;
    if sum != 0.0 {
      ZeroProduct(difference, sum);
    }
  }

  /** The empty run tallies to the fresh tally. The run is a parameter
      pinned by the precondition, not a literal, so that the statement is
      about SeqTally applied to a variable. */
  lemma SeqTallyOfEmpty(es: seq<PairError>)
    requires |es| == 0
    ensures SeqTally(es) == Zero
  {
  }

  /** A run of one verdict tallies what the in-place update for that
      verdict does to a fresh tally. As above, the run is pinned by the
      precondition rather than written as a literal. */
  lemma SeqTallyOfOne(es: seq<PairError>, e: PairError)
    requires es == [e]
    ensures SeqTally(es) == RecordPair(Zero, e)
  {
    var empty := es[..0];
    assert es == empty + [e];
    SeqTallyOfEmpty(empty);
    SeqTallyAppend(empty, e);
    RecordPairIsCombine(Zero, e);
  }

  /** The one shared block of two single-voxel layers tallies its pair. */
  lemma SingleVoxelBlock(gtVoxel: Voxel, testVoxel: Voxel, mode: EvaluationMode)
    ensures SharedTally([gtVoxel], [testVoxel], mode)
              == RecordPair(Zero, ComputeVoxelError(gtVoxel, testVoxel, mode))
  {
    var e := ComputeVoxelError(gtVoxel, testVoxel, mode);
    var es := BlockVerdicts([gtVoxel], [testVoxel], mode);
    assert es == [e];
    SeqTallyOfOne(es, e);
  }

  /** Two layers sharing their only block report that block's pairs. */
  lemma OneSharedBlockReport(gt: Layer, test: Layer, mode: EvaluationMode, b: BlockIndex)
    requires gt.blocks.Keys == {b} && test.blocks.Keys == {b}
    ensures Accumulate(gt, test, mode) == SharedTally(gt.blocks[b], test.blocks[b], mode)
  {
    TotalOfOne(b, TestPass(gt, test, mode));
    TotalOfOne(b, GtPass(gt, test));
    ZeroIsNeutral(SharedTally(gt.blocks[b], test.blocks[b], mode));
  }

  /** Comparing two single-voxel layers reports exactly what the in-place
      update for the one pair does to a fresh tally. */
  lemma SingleVoxelReport(b: BlockIndex, gtVoxel: Voxel, testVoxel: Voxel, mode: EvaluationMode)
    ensures Accumulate(SingleVoxelLayer(b, gtVoxel), SingleVoxelLayer(b, testVoxel), mode)
              == RecordPair(Zero, ComputeVoxelError(gtVoxel, testVoxel, mode))
  {
    var gt, test := SingleVoxelLayer(b, gtVoxel), SingleVoxelLayer(b, testVoxel);
    assert gt.blocks.Keys == {b} && test.blocks.Keys == {b};
    OneSharedBlockReport(gt, test, mode, b);
    SingleVoxelBlock(gtVoxel, testVoxel, mode);
  }

  /** A pair of a shared block with an unobserved voxel on either side,
      or on both, counts as non-overlapping: the counter is not the number
      of voxels observed in exactly one layer. */
  lemma UnobservedSharedPairIsNonOverlapping(b: BlockIndex, gtVoxel: Voxel, testVoxel: Voxel, mode: EvaluationMode)
    requires !IsObserved(gtVoxel) || !IsObserved(testVoxel)
    ensures Accumulate(SingleVoxelLayer(b, gtVoxel), SingleVoxelLayer(b, testVoxel), mode).counts.nonOverlapping == 1
  {
    SingleVoxelReport(b, gtVoxel, testVoxel, mode);
  }

  /** An unobserved voxel of a block that only one layer holds is not
      counted at all, whichever layer holds it. */
  lemma UnobservedOneLayerVoxelIsNotCounted(b: BlockIndex, v: Voxel, other: Layer, mode: EvaluationMode)
    requires !IsObserved(v) && other.blocks.Keys == {}
    ensures Accumulate(SingleVoxelLayer(b, v), other, mode).counts.nonOverlapping == 0
    ensures Accumulate(other, SingleVoxelLayer(b, v), mode).counts.nonOverlapping == 0
  {
    var layer := SingleVoxelLayer(b, v);
    assert layer.blocks.Keys == {b};
    assert Total(other.blocks.Keys, TestPass(layer, other, mode)) == Zero;
    TotalOfOne(b, GtPass(layer, other));
    assert Total(other.blocks.Keys, GtPass(other, layer)) == Zero;
    TotalOfOne(b, TestPass(other, layer, mode));
  }

  /** The report on a single evaluated pair: RMSE sqrt(error²), its
      magnitude as maximum error, one evaluated, overlapping voxel. */
  lemma EvaluatedPairDetails(e: PairError, sqrt: real -> real)
    requires IsSqrt(sqrt) && e.result == Evaluated
    ensures Finalize(RecordPair(Zero, e), sqrt)
              == Details(sqrt(Square(e.error) / 1.0), Abs(e.error), 0.0, 1, 0, 1, 0)
  {
    var t := RecordPair(Zero, e);
    assert t == Tally(ErrorStats(Square(e.error), Abs(e.error), 0.0), Counters(1, 0, 1, 0));
    assert t.errors.sumSquared / (t.counts.evaluated as real) == Square(e.error) / 1.0;
  }

  /** The report on a single ignored pair: one ignored, overlapping voxel and
      no error. */
  lemma IgnoredPairDetails(e: PairError, sqrt: real -> real)
    requires IsSqrt(sqrt) && e.result == Ignored
    ensures Finalize(RecordPair(Zero, e), sqrt) == Details(0.0, 0.0, 0.0, 0, 1, 1, 0)
  {
  }

  /** Ground truth at +0.5 and test at +0.3, both observed: the pair is
      evaluated with error -0.2 in every mode, and the RMSE and maximum
      error are 0.2. The voxels are parameters fixed by the precondition,
      which keeps the literal values out of the evaluator's definitions
      until the proof uses them. */
  lemma PairInFrontOfBothSurfaces(b: BlockIndex, gtVoxel: Voxel, testVoxel: Voxel, mode: EvaluationMode, sqrt: real -> real)
    requires IsSqrt(sqrt)
    requires gtVoxel == Tsdf(0.5, 1.0) && testVoxel == Tsdf(0.3, 1.0)
    ensures ComputeVoxelError(gtVoxel, testVoxel, mode) == PairError(Evaluated, -0.2)
    ensures Evaluate(SingleVoxelLayer(b, gtVoxel), SingleVoxelLayer(b, testVoxel), mode, sqrt)
              == Details(0.2, 0.2, 0.0, 1, 0, 1, 0)
  {
    var meanSquare := Square(-0.2) / 1.0;
    assert meanSquare == 0.2 * 0.2;
    assert IsRootOf(sqrt(meanSquare), meanSquare);
    RootOfSquare(sqrt(meanSquare), 0.2);
    var e := ComputeVoxelError(gtVoxel, testVoxel, mode);
    assert e == PairError(Evaluated, -0.2);
    SingleVoxelReport(b, gtVoxel, testVoxel, mode);
    EvaluatedPairDetails(e, sqrt);
  }

  /** Ground truth at -0.4, test at +0.1, both observed, errors behind the
      ground-truth surface ignored: the pair is ignored and the RMSE is 0.
      The voxels are fixed by the precondition, as above. */
  lemma PairBehindGtSurfaceIgnored(b: BlockIndex, gtVoxel: Voxel, testVoxel: Voxel, sqrt: real -> real)
    requires IsSqrt(sqrt)
    requires gtVoxel == Tsdf(-0.4, 1.0) && testVoxel == Tsdf(0.1, 1.0)
    ensures ComputeVoxelError(gtVoxel, testVoxel, IgnoreErrorBehindGtSurface) == PairError(Ignored, 0.0)
    ensures Evaluate(SingleVoxelLayer(b, gtVoxel), SingleVoxelLayer(b, testVoxel), IgnoreErrorBehindGtSurface, sqrt)
              == Details(0.0, 0.0, 0.0, 0, 1, 1, 0)
  {
    var e := ComputeVoxelError(gtVoxel, testVoxel, IgnoreErrorBehindGtSurface);
    assert e == PairError(Ignored, 0.0);
    SingleVoxelReport(b, gtVoxel, testVoxel, IgnoreErrorBehindGtSurface);
    IgnoredPairDetails(e, sqrt);
  }

  /** Which blocks are shared and which belong to one layer only. */
  lemma ThreeBlockSplit(gt: Layer, test: Layer, a: BlockIndex, b: BlockIndex, c: BlockIndex)
    requires a != b && a != c && b != c
    requires gt.blocks.Keys == {a, b} && test.blocks.Keys == {a, c}
    ensures SharedBlocks(gt, test) == {a} && OnlyIn(test, gt) == {c} && OnlyIn(gt, test) == {b}
  {
  }

  /** Ground truth holds blocks a and b, the test layer holds a and c: the
      non-overlapping count is the non-overlapping pairs of a, plus the observed
      voxels of b, plus those of c, each block counted once. */
  lemma ThreeBlockNonOverlapCount(gt: Layer, test: Layer, mode: EvaluationMode, sqrt: real -> real,
                  a: BlockIndex, b: BlockIndex, c: BlockIndex)
    requires IsSqrt(sqrt) && Compatible(gt, test)
    requires a != b && a != c && b != c
    requires gt.blocks.Keys == {a, b} && test.blocks.Keys == {a, c}
    ensures Evaluate(gt, test, mode, sqrt).numNonOverlappingVoxels
              == CountOf(BlockVerdicts(gt.blocks[a], test.blocks[a], mode), NoOverlap)
                 + CountObserved(test.blocks[c]) + CountObserved(gt.blocks[b])
    ensures Evaluate(gt, test, mode, sqrt).numEvaluatedVoxels + Evaluate(gt, test, mode, sqrt).numIgnoredVoxels
              + CountOf(BlockVerdicts(gt.blocks[a], test.blocks[a], mode), NoOverlap)
              == VoxelsPerBlock(gt.voxelsPerSide)
  {
    ThreeBlockSplit(gt, test, a, b, c);
    assert |SharedBlocks(gt, test)| == 1;
    CountingInvariants(gt, test, mode, sqrt);
    TotalOfOne(a, Shared(gt, test, mode));
    TotalOfOne(c, Exclusive(test));
    TotalOfOne(b, Exclusive(gt));
  }
}
