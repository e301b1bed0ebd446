/** What the evaluator's report satisfies, stated over the layers compared:
    how the two passes split the blocks, the counting invariants, the error
    statistics, and symmetry under swapping the layers. */
module Properties {
  import opened Voxels
  import opened Comparison
  import opened VerdictRuns
  import opened Tallies
  import opened Totals
  import opened Evaluation

  /** What a block allocated in both layers contributes, by block index. */
  function Shared(gt: Layer, test: Layer, mode: EvaluationMode): BlockIndex -> Tally {
    b =>
      if b in gt.blocks && b in test.blocks then SharedTally(gt.blocks[b], test.blocks[b], mode)
      else Zero
  }

  /** What a block of one layer contributes when the other layer lacks it. */
  function Exclusive(layer: Layer): BlockIndex -> Tally {
    b => if b in layer.blocks then ExclusiveTally(layer.blocks[b]) else Zero
  }

  /** Blocks allocated in the first layer only. */
  function OnlyIn(layer: Layer, other: Layer): set<BlockIndex> {
    layer.blocks.Keys - other.blocks.Keys
  }

  ghost function SharedPart(gt: Layer, test: Layer, mode: EvaluationMode): Tally {
    Total(SharedBlocks(gt, test), Shared(gt, test, mode))
  }

  ghost function TestOnlyPart(gt: Layer, test: Layer): Tally {
    Total(OnlyIn(test, gt), Exclusive(test))
  }

  ghost function GtOnlyPart(gt: Layer, test: Layer): Tally {
    Total(OnlyIn(gt, test), Exclusive(gt))
  }

  /** The first pass splits into the shared blocks and the test-only blocks. */
  lemma TestPassSplit(gt: Layer, test: Layer, mode: EvaluationMode)
    ensures Total(test.blocks.Keys, TestPass(gt, test, mode))
              == Combine(SharedPart(gt, test, mode), TestOnlyPart(gt, test))
  {
    var shared := SharedBlocks(gt, test);
    var testPass := TestPass(gt, test, mode);
    assert test.blocks.Keys == shared + OnlyIn(test, gt);
    TotalSplit(shared, OnlyIn(test, gt), testPass);
    TotalAgree(shared, testPass, Shared(gt, test, mode));
    TotalAgree(OnlyIn(test, gt), testPass, Exclusive(test));
  }

  /** The second pass adds the ground-truth-only blocks and nothing for the
      shared ones. */
  lemma GtPassSplit(gt: Layer, test: Layer)
    ensures Total(gt.blocks.Keys, GtPass(gt, test)) == GtOnlyPart(gt, test)
  {
    var shared := SharedBlocks(gt, test);
    var gtPass := GtPass(gt, test);
    assert gt.blocks.Keys == OnlyIn(gt, test) + shared;
    TotalSplit(OnlyIn(gt, test), shared, gtPass);
    TotalOfZeros(shared, gtPass);
    TotalAgree(OnlyIn(gt, test), gtPass, Exclusive(gt));
    ZeroIsNeutral(GtOnlyPart(gt, test));
    CombineCommutes(GtOnlyPart(gt, test), Zero);
  }

  /** The two passes visit every block exactly once in effect: the result
      is the shared blocks' pairs, plus the test-only blocks (first pass),
      plus the ground-truth-only blocks (second pass). Shared blocks add
      nothing in the second pass. */
  lemma TwoPassDecomposition(gt: Layer, test: Layer, mode: EvaluationMode)
    ensures Accumulate(gt, test, mode)
              == Combine(Combine(SharedPart(gt, test, mode), TestOnlyPart(gt, test)), GtOnlyPart(gt, test))
  {
    TestPassSplit(gt, test, mode);
    GtPassSplit(gt, test);
  }

  /** The verdicts on the pairs of the block at b, allocated in both layers. */
  function Verdicts(gt: Layer, test: Layer, mode: EvaluationMode, b: BlockIndex): seq<PairError>
    requires b in gt.blocks && b in test.blocks
  {
    BlockVerdicts(gt.blocks[b], test.blocks[b], mode)
  }

  /** The shared blocks keep overlapping = evaluated + ignored, with
      non-negative counters and error statistics. */
  lemma SharedPartSound(gt: Layer, test: Layer, mode: EvaluationMode)
    ensures Sound(SharedPart(gt, test, mode))
  {
    var f := Shared(gt, test, mode);
    forall b | b in SharedBlocks(gt, test)
      ensures Sound(f(b))
    {
    }
    TotalSound(SharedBlocks(gt, test), f);
  }

  /** In compatible layers the shared blocks classify every one of their
      vps³ pairs: |shared| · vps³ pairs in all. */
  lemma SharedPartClassifiesAllPairs(gt: Layer, test: Layer, mode: EvaluationMode)
    requires Compatible(gt, test)
    ensures Classified(SharedPart(gt, test, mode))
              == |SharedBlocks(gt, test)| * VoxelsPerBlock(gt.voxelsPerSide)
  {
    var f := Shared(gt, test, mode);
    var n := VoxelsPerBlock(gt.voxelsPerSide);
    forall b | b in SharedBlocks(gt, test)
      ensures Classified(f(b)) == n
    {
      assert |gt.blocks[b]| == n && |test.blocks[b]| == n;
    }
    TotalClassified(SharedBlocks(gt, test), f, n);
  }

  /** Blocks of one layer only add non-overlapping voxels and nothing else. */
  lemma ExclusivePartOnlyCounts(layer: Layer, keys: set<BlockIndex>)
    ensures OnlyNonOverlapping(Total(keys, Exclusive(layer)))
  {
    var f := Exclusive(layer);
    forall b | b in keys
      ensures OnlyNonOverlapping(f(b))
    {
    }
    TotalOnlyNonOverlapping(keys, f);
  }

  /** The counting invariants of the report: overlapping = evaluated +
      ignored; every pair of a shared block is evaluated, ignored or
      non-overlapping; and the non-overlapping count is made of the shared
      blocks' unobserved pairs, the observed voxels of test-only blocks and
      the observed voxels of ground-truth-only blocks, each counted once. */
  lemma CountingInvariants(gt: Layer, test: Layer, mode: EvaluationMode, sqrt: real -> real)
    requires Compatible(gt, test) && IsSqrt(sqrt)
    ensures Evaluate(gt, test, mode, sqrt).numOverlappingVoxels
              == Evaluate(gt, test, mode, sqrt).numEvaluatedVoxels + Evaluate(gt, test, mode, sqrt).numIgnoredVoxels
    ensures Evaluate(gt, test, mode, sqrt).numEvaluatedVoxels + Evaluate(gt, test, mode, sqrt).numIgnoredVoxels
              + SharedPart(gt, test, mode).counts.nonOverlapping
              == |SharedBlocks(gt, test)| * VoxelsPerBlock(gt.voxelsPerSide)
    ensures Evaluate(gt, test, mode, sqrt).numNonOverlappingVoxels
              == SharedPart(gt, test, mode).counts.nonOverlapping
                 + TestOnlyPart(gt, test).counts.nonOverlapping
                 + GtOnlyPart(gt, test).counts.nonOverlapping
  {
    TwoPassDecomposition(gt, test, mode);
    SharedPartSound(gt, test, mode);
    SharedPartClassifiesAllPairs(gt, test, mode);
    ExclusivePartOnlyCounts(test, OnlyIn(test, gt));
    ExclusivePartOnlyCounts(gt, OnlyIn(gt, test));
  }

  /** Merging in tallies that only count non-overlapping voxels leaves the
      error statistics and the evaluated count as they were. */
  lemma CountsOnlyKeepErrors(s: Tally, t: Tally, g: Tally)
    requires Anchored(s) && OnlyNonOverlapping(t) && OnlyNonOverlapping(g)
    ensures Combine(Combine(s, t), g).errors.sumSquared == s.errors.sumSquared
    ensures Combine(Combine(s, t), g).errors.largest == s.errors.largest
    ensures Combine(Combine(s, t), g).errors.smallest == s.errors.smallest
    ensures Combine(Combine(s, t), g).counts.evaluated == s.counts.evaluated
  {
  }

  /** Only shared blocks carry error or evaluated pairs: the report's error
      statistics are those of the shared blocks, and the minimum stays 0. */
  lemma ErrorsComeFromSharedBlocks(gt: Layer, test: Layer, mode: EvaluationMode)
    ensures Accumulate(gt, test, mode).errors.sumSquared == SharedPart(gt, test, mode).errors.sumSquared
    ensures Accumulate(gt, test, mode).errors.largest == SharedPart(gt, test, mode).errors.largest
    ensures Accumulate(gt, test, mode).errors.smallest == 0.0
    ensures Accumulate(gt, test, mode).counts.evaluated == SharedPart(gt, test, mode).counts.evaluated
  {
    TwoPassDecomposition(gt, test, mode);
    ExclusivePartOnlyCounts(test, OnlyIn(test, gt));
    ExclusivePartOnlyCounts(gt, OnlyIn(gt, test));
    var f := Shared(gt, test, mode);
    forall b | b in SharedBlocks(gt, test)
      ensures f(b).errors.smallest == 0.0
    {
    }
    TotalMinErrorZero(SharedBlocks(gt, test), f);
    CountsOnlyKeepErrors(SharedPart(gt, test, mode), TestOnlyPart(gt, test), GtOnlyPart(gt, test));
  }

  /** The reported minimum error is always 0: it starts at 0 and is only
      ever lowered towards a magnitude. */
  lemma MinErrorStaysZero(gt: Layer, test: Layer, mode: EvaluationMode, sqrt: real -> real)
    requires IsSqrt(sqrt)
    ensures Evaluate(gt, test, mode, sqrt).minError == 0.0
  {
    ErrorsComeFromSharedBlocks(gt, test, mode);
  }

  /** The pair at linear index i of the block at b was evaluated. */
  predicate EvaluatedAt(gt: Layer, test: Layer, mode: EvaluationMode, b: BlockIndex, i: int) {
    && b in gt.blocks && b in test.blocks
    && 0 <= i < |Verdicts(gt, test, mode, b)|
    && Verdicts(gt, test, mode, b)[i].result == Evaluated
  }

  /** The error of an evaluated pair: sdf(test) - sdf(gt). */
  function ErrorAt(gt: Layer, test: Layer, mode: EvaluationMode, b: BlockIndex, i: int): real
    requires EvaluatedAt(gt, test, mode, b, i)
  {
    Verdicts(gt, test, mode, b)[i].error
  }

  /** The reported maximum error is the largest error magnitude over the
      evaluated pairs, and 0 when no pair with non-zero error was evaluated. */
  lemma MaxErrorIsLargestEvaluatedError(gt: Layer, test: Layer, mode: EvaluationMode, sqrt: real -> real)
    requires IsSqrt(sqrt)
    ensures Evaluate(gt, test, mode, sqrt).maxError >= 0.0
    ensures forall b, i :: EvaluatedAt(gt, test, mode, b, i) ==>
              Abs(ErrorAt(gt, test, mode, b, i)) <= Evaluate(gt, test, mode, sqrt).maxError
    ensures Evaluate(gt, test, mode, sqrt).maxError > 0.0 ==>
              exists b, i :: EvaluatedAt(gt, test, mode, b, i)
                && Abs(ErrorAt(gt, test, mode, b, i)) == Evaluate(gt, test, mode, sqrt).maxError
  {
    ErrorsComeFromSharedBlocks(gt, test, mode);
    var shared := SharedBlocks(gt, test);
    var f := Shared(gt, test, mode);
    var m := SharedPart(gt, test, mode).errors.largest;
    forall b, i | EvaluatedAt(gt, test, mode, b, i)
      ensures Abs(ErrorAt(gt, test, mode, b, i)) <= m
    {
      TotalMaxBound(shared, f, b);
      LargestErrorIsMaximum(Verdicts(gt, test, mode, b));
    }
    if m > 0.0 {
      TotalMaxAttained(shared, f);
      var b :| b in shared && f(b).errors.largest == m;
      LargestErrorIsMaximum(Verdicts(gt, test, mode, b));
      var i :| 0 <= i < |Verdicts(gt, test, mode, b)| && Verdicts(gt, test, mode, b)[i].result == Evaluated
               && Abs(Verdicts(gt, test, mode, b)[i].error) == m;
      assert EvaluatedAt(gt, test, mode, b, i);
    }
  }

  /** A root is 0 exactly when its square is. */
  lemma RootIsZeroIff(r: real, x: real)
    requires IsRootOf(r, x)
    ensures r == 0.0 <==> x == 0.0
  {
    assert Square(r) == r * r == x;
    SquareIsZeroOnlyAtZero(r);
  }

  /** A quotient of reals by a positive divisor is 0 exactly when the
      dividend is, and keeps the dividend's sign. */
  lemma QuotientByPositive(a: real, n: real)
    requires n > 0.0
    ensures a / n == 0.0 <==> a == 0.0
    ensures a >= 0.0 ==> a / n >= 0.0
  {
    assert a == (a / n) * n;
  }

  /** The RMSE of a tally with non-negative squared error and count. */
  lemma FinalizedRmse(t: Tally, sqrt: real -> real)
    requires IsSqrt(sqrt)
    requires t.counts.evaluated >= 0 && t.errors.sumSquared >= 0.0
    ensures var d := Finalize(t, sqrt);
      && (d.numEvaluatedVoxels == 0 ==> d.rmse == 0.0)
      && (d.numEvaluatedVoxels > 0 ==>
            IsRootOf(d.rmse, t.errors.sumSquared / (d.numEvaluatedVoxels as real)))
  {
    if t.counts.evaluated > 0 {
      QuotientByPositive(t.errors.sumSquared, t.counts.evaluated as real);
    }
  }

  /** The RMSE is 0 when nothing is evaluated and otherwise the non-negative
      root of the mean squared error of the evaluated pairs. */
  lemma RmseIsRootMeanSquare(gt: Layer, test: Layer, mode: EvaluationMode, sqrt: real -> real)
    requires IsSqrt(sqrt)
    ensures var d := Evaluate(gt, test, mode, sqrt);
      && d.numEvaluatedVoxels >= 0
      && (d.numEvaluatedVoxels == 0 ==> d.rmse == 0.0)
      && (d.numEvaluatedVoxels > 0 ==>
            IsRootOf(d.rmse, SharedPart(gt, test, mode).errors.sumSquared / (d.numEvaluatedVoxels as real)))
  {
    var t := Accumulate(gt, test, mode);
    ErrorsComeFromSharedBlocks(gt, test, mode);
    SharedPartSound(gt, test, mode);
    FinalizedRmse(t, sqrt);
    var d := Finalize(t, sqrt);
    assert d == Evaluate(gt, test, mode, sqrt);
    assert SharedPart(gt, test, mode).errors.sumSquared == t.errors.sumSquared;
  }

  /** When no evaluated pair has an error, the shared blocks carry none. */
  lemma NoPairErrorMeansNoSquaredError(gt: Layer, test: Layer, mode: EvaluationMode)
    requires forall b, i :: EvaluatedAt(gt, test, mode, b, i) ==> ErrorAt(gt, test, mode, b, i) == 0.0
    ensures SharedPart(gt, test, mode).errors.sumSquared == 0.0
    ensures SharedPart(gt, test, mode).errors.largest == 0.0
  {
    var f := Shared(gt, test, mode);
    forall b | b in SharedBlocks(gt, test)
      ensures ErrorFree(f(b))
    {
      var es := Verdicts(gt, test, mode, b);
      forall i | 0 <= i < |es| && es[i].result == Evaluated
        ensures es[i].error == 0.0
      {
        assert EvaluatedAt(gt, test, mode, b, i);
      }
      SquaredErrorSumIsZero(es);
      LargestErrorIsMaximum(es);
    }
    TotalErrorFree(SharedBlocks(gt, test), f);
  }

  /** When the shared blocks carry no squared error, no evaluated pair has
      an error. */
  lemma NoSquaredErrorMeansNoPairError(gt: Layer, test: Layer, mode: EvaluationMode)
    requires SharedPart(gt, test, mode).errors.sumSquared == 0.0
    ensures forall b, i :: EvaluatedAt(gt, test, mode, b, i) ==> ErrorAt(gt, test, mode, b, i) == 0.0
  {
    var f := Shared(gt, test, mode);
    forall b | b in SharedBlocks(gt, test)
      ensures Sound(f(b))
    {
    }
    forall b, i | EvaluatedAt(gt, test, mode, b, i)
      ensures ErrorAt(gt, test, mode, b, i) == 0.0
    {
      TotalSoundBound(SharedBlocks(gt, test), f, b);
      SquaredErrorSumIsZero(Verdicts(gt, test, mode, b));
    }
  }

  /** With no evaluated pair counted, there is no evaluated pair. */
  lemma NoEvaluatedCountMeansNoEvaluatedPair(gt: Layer, test: Layer, mode: EvaluationMode)
    requires SharedPart(gt, test, mode).counts.evaluated == 0
    ensures forall b, i :: !EvaluatedAt(gt, test, mode, b, i)
  {
    var f := Shared(gt, test, mode);
    forall b | b in SharedBlocks(gt, test)
      ensures Sound(f(b))
    {
    }
    forall b, i | EvaluatedAt(gt, test, mode, b, i)
      ensures false
    {
      TotalSoundBound(SharedBlocks(gt, test), f, b);
      CountOfPositive(Verdicts(gt, test, mode, b), Evaluated);
    }
  }

  /** The RMSE is 0 exactly when every evaluated pair has error 0. */
  lemma RmseIsZeroIffNoError(gt: Layer, test: Layer, mode: EvaluationMode, sqrt: real -> real)
    requires IsSqrt(sqrt)
    ensures var d := Evaluate(gt, test, mode, sqrt);
      d.rmse == 0.0 <==> forall b, i :: EvaluatedAt(gt, test, mode, b, i) ==> ErrorAt(gt, test, mode, b, i) == 0.0
  {
    var d := Evaluate(gt, test, mode, sqrt);
    var sum := SharedPart(gt, test, mode).errors.sumSquared;
    ErrorsComeFromSharedBlocks(gt, test, mode);
    RmseIsRootMeanSquare(gt, test, mode, sqrt);
    assert d.numEvaluatedVoxels == SharedPart(gt, test, mode).counts.evaluated;
    if d.numEvaluatedVoxels == 0 {
      NoEvaluatedCountMeansNoEvaluatedPair(gt, test, mode);
    } else {
      var n := d.numEvaluatedVoxels as real;
      QuotientByPositive(sum, n);
      RootIsZeroIff(d.rmse, sum / n);
      if sum == 0.0 {
        NoSquaredErrorMeansNoPairError(gt, test, mode);
      }
      if forall b, i :: EvaluatedAt(gt, test, mode, b, i) ==> ErrorAt(gt, test, mode, b, i) == 0.0 {
        NoPairErrorMeansNoSquaredError(gt, test, mode);
      }
    }
  }

  /** The shared blocks contribute the same whichever layer plays the
      ground truth, once the mode is mirrored. */
  lemma SharedPartSwapped(gt: Layer, test: Layer, mode: EvaluationMode)
    ensures SharedPart(test, gt, Mirror(mode)) == SharedPart(gt, test, mode)
  {
    var shared := SharedBlocks(gt, test);
    assert SharedBlocks(test, gt) == shared;
    var swapped := Shared(test, gt, Mirror(mode));
    var f := Shared(gt, test, mode);
    forall b | b in shared
      ensures swapped(b) == f(b)
    {
      SwappedBlockVerdicts(gt.blocks[b], test.blocks[b], mode);
      SeqTallyOfNegated(BlockVerdicts(gt.blocks[b], test.blocks[b], mode));
    }
    TotalAgree(shared, swapped, f);
  }

  /** Swapping the layers and mirroring the mode leaves the report
      unchanged: errors change sign, but only their magnitudes and squares
      are reported, and the two one-layer passes trade places. */
  lemma SwapSymmetry(gt: Layer, test: Layer, mode: EvaluationMode, sqrt: real -> real)
    requires IsSqrt(sqrt)
    ensures Evaluate(test, gt, Mirror(mode), sqrt) == Evaluate(gt, test, mode, sqrt)
  {
    TwoPassDecomposition(gt, test, mode);
    TwoPassDecomposition(test, gt, Mirror(mode));
    SharedPartSwapped(gt, test, mode);
    var s, a, c := SharedPart(gt, test, mode), TestOnlyPart(gt, test), GtOnlyPart(gt, test);
    CombineAssociates(s, c, a);
    CombineCommutes(c, a);
    CombineAssociates(s, a, c);
  }

  /** EvaluateAllVoxels and IgnoreErrorBehindAllSurfaces are symmetric in
      the two layers; ignoring errors behind the test surface is ignoring
      them behind the ground-truth surface with the layers swapped. */
  lemma SymmetricModes(gt: Layer, test: Layer, sqrt: real -> real)
    requires IsSqrt(sqrt)
    ensures Evaluate(test, gt, EvaluateAllVoxels, sqrt) == Evaluate(gt, test, EvaluateAllVoxels, sqrt)
    ensures Evaluate(test, gt, IgnoreErrorBehindAllSurfaces, sqrt)
              == Evaluate(gt, test, IgnoreErrorBehindAllSurfaces, sqrt)
    ensures Evaluate(test, gt, IgnoreErrorBehindGtSurface, sqrt)
              == Evaluate(gt, test, IgnoreErrorBehindTestSurface, sqrt)
  {
    SwapSymmetry(gt, test, EvaluateAllVoxels, sqrt);
    SwapSymmetry(gt, test, IgnoreErrorBehindAllSurfaces, sqrt);
    SwapSymmetry(gt, test, IgnoreErrorBehindTestSurface, sqrt);
  }

  /** A layer compared with itself has no error: RMSE and maximum error are
      0, in every mode. */
  lemma SelfComparisonIsExact(layer: Layer, mode: EvaluationMode, sqrt: real -> real)
    requires IsSqrt(sqrt)
    ensures Evaluate(layer, layer, mode, sqrt).rmse == 0.0
    ensures Evaluate(layer, layer, mode, sqrt).maxError == 0.0
  {
    forall b, i | EvaluatedAt(layer, layer, mode, b, i)
      ensures ErrorAt(layer, layer, mode, b, i) == 0.0
    {
      SelfVerdictsHaveNoError(layer.blocks[b], mode);
    }
    RmseIsZeroIffNoError(layer, layer, mode, sqrt);
    MaxErrorIsLargestEvaluatedError(layer, layer, mode, sqrt);
  }

  /** Two layers without blocks give a report of zeros. */
  lemma EmptyLayersGiveZeros(gtVoxelsPerSide: nat, testVoxelsPerSide: nat, mode: EvaluationMode,
                             sqrt: real -> real)
    requires IsSqrt(sqrt)
    ensures Evaluate(Layer(gtVoxelsPerSide, map[]), Layer(testVoxelsPerSide, map[]), mode, sqrt)
              == Details(0.0, 0.0, 0.0, 0, 0, 0, 0)
  {
    var gt, test := Layer(gtVoxelsPerSide, map[]), Layer(testVoxelsPerSide, map[]);
    assert gt.blocks.Keys == {} && test.blocks.Keys == {};
    assert Total(test.blocks.Keys, TestPass(gt, test, mode)) == Zero;
    assert Total(gt.blocks.Keys, GtPass(gt, test)) == Zero;
  }
}
