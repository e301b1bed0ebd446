# Layer comparison evaluator (voxblox `evaluation_utils.h`)

This project models voxblox's layer comparison in Dafny. The evaluator
compares a test voxel layer against a ground-truth layer of the same kind.
In the source both layers are TSDF or both are ESDF. The model is more
permissive: one `Voxel` datatype covers both kinds, so a layer may mix them,
and each voxel is tested and read by its own kind. The evaluator reports:

- the root mean square of the signed-distance error;
- the largest absolute error;
- the minimum error field;
- how many voxel pairs were evaluated, ignored, overlapping and
  non-overlapping.

How one voxel pair is classified:

- A TSDF voxel counts as observed when its weight exceeds 1e-6. An ESDF
  voxel counts as observed when its flag is set.
- A pair where either voxel is unobserved does not overlap, and its error
  is 0.
- Otherwise the evaluation mode may ignore the pair when a voxel lies
  behind the test surface, the ground-truth surface, or either one.
  "Behind" means a negative distance.
- Every remaining pair is evaluated, with error `sdf(test) - sdf(gt)`.

How the evaluator walks the layers:

- It first visits every block of the test layer. A block that the ground
  truth also holds is compared voxel by voxel at the same linear index. A
  block only the test layer holds adds its observed voxels to the
  non-overlapping count.
- It then visits the blocks only the ground truth holds, counting their
  observed voxels the same way.
- So the non-overlapping count treats the two kinds of block differently.
  It is not the number of voxels observed in exactly one layer. A pair of
  a shared block counts when either voxel is unobserved, including when
  neither is observed. An unobserved voxel of a block held by one layer
  only never counts.
- The RMSE is `sqrt(sum of squared errors / evaluated)`, or 0 when nothing
  was evaluated.

Two consequences of the code as written are proved, not adjusted:

- The details record documents `min_error` as the minimum absolute
  distance error (evaluation_utils.h:23), but the code does not compute
  that. It starts `min_error` at 0 and only ever lowers it towards an
  absolute error, which is never negative, so it always reports 0. The
  model follows the code.
- The convenience overload uses the mode that ignores errors behind the
  test surface.

The model has eight modules:

| module | file | contents |
|---|---|---|
| `Voxels` | `voxels.dfy` | voxel kinds, observation test, layers as maps from block index to a dense block |
| `Comparison` | `comparison.dfy` | evaluation modes and the per-pair classification |
| `VerdictRuns` | `verdicts.dfy` | the verdicts of one shared block, with independent count, squared-sum and maximum definitions |
| `Tallies` | `tallies.dfy` | the evaluator's running record, and the in-place update as a merge `Combine`; the all-zero record is neutral only on records whose error bounds straddle 0 (`ZeroIsNeutral`), as every running record's do |
| `Totals` | `totals.dfy` | a set-indexed sum of tallies that does not depend on visiting order |
| `Evaluation` | `evaluation.dfy` | the two passes as loops, and the final RMSE step |
| `Properties` | `properties.dfy` | counting identities, error statistics, RMSE, symmetry |
| `Scenarios` | `scenarios.dfy` | one evaluated pair, one ignored pair, three blocks |

The model represents the source's values as follows:

- Floating-point values are modelled as `real`.
- The square root is a parameter `sqrt`. It only needs to satisfy
  `IsSqrt`: it returns the non-negative root of every non-negative real.
- Block iteration order is abstracted by `Totals.Total`, a sum over the set
  of block indices. Lemmas show that the sum is order independent.

## Model

All source paths are relative to the repository root.

| member | source | states |
|---|---|---|
| Voxels.ObservationTest | voxblox/include/voxblox/utils/evaluation_utils.h:198-206 | the observation test ignores the distance; an ESDF voxel is observed exactly when its flag is set; a TSDF voxel at weight exactly 1e-6 is unobserved (strict threshold); raising a TSDF weight never makes an observed voxel unobserved |
| Voxels.Sdf | voxblox/include/voxblox/utils/evaluation_utils.h:208-216 | the signed distance of either voxel kind is its stored distance |
| Voxels.CountObserved | voxblox/include/voxblox/utils/evaluation_utils.h:70-76 | the count equals the number of linear indices holding an observed voxel; it is at most the block size, 0 exactly when no voxel is observed and the full block size exactly when every voxel is |
| Voxels.CountObservedOneMore | voxblox/include/voxblox/utils/evaluation_utils.h:72-75 | scanning one more voxel raises the observed count by one exactly when that voxel is observed |
| Comparison.ComputeVoxelError | voxblox/include/voxblox/utils/evaluation_utils.h:168-196 | a pair is non-overlapping iff one voxel is unobserved; an observed pair gets the verdict of the mode-by-mode decision table; only evaluated pairs carry an error, and that error is test distance minus ground-truth distance |
| Comparison.UnobservedVoxelNeverOverlaps | voxblox/include/voxblox/utils/evaluation_utils.h:172-206 | a TSDF voxel with weight at most 1e-6, or an ESDF voxel with its flag unset, on either side makes the pair kNoOverlap with error 0 in every mode |
| Comparison.ObservedVoxelsOverlap | voxblox/include/voxblox/utils/evaluation_utils.h:176-206 | two voxels that pass their kind's observation test are never classified kNoOverlap |
| Comparison.Mirror | voxblox/include/voxblox/utils/evaluation_utils.h:180-186 | the mirrored mode ignores behind the test surface iff the original ignores behind the ground-truth surface, and vice versa |
| Comparison.SwappedPairNegatesError | voxblox/include/voxblox/utils/evaluation_utils.h:180-195 | swapping the two voxels and mirroring the mode keeps the verdict and negates the error; EvaluateAllVoxels is its own mirror |
| Comparison.SelfComparisonHasNoError | voxblox/include/voxblox/utils/evaluation_utils.h:188-195 | a voxel compared with itself has error 0 in every mode |
| VerdictRuns.BlockVerdicts | voxblox/include/voxblox/utils/evaluation_utils.h:81-87 | a shared block yields one verdict per common linear index; the pair at an index is non-overlapping iff one of its voxels is unobserved, an observed pair gets the mode's decision, and only an evaluated pair carries an error, sdf(test) - sdf(gt) |
| VerdictRuns.SwappedBlockVerdicts | voxblox/include/voxblox/utils/evaluation_utils.h:81-87 | comparing the blocks the other way round under the mirrored mode gives the same verdicts with negated errors |
| VerdictRuns.SelfVerdictsHaveNoError | voxblox/include/voxblox/utils/evaluation_utils.h:81-87 | comparing a block with itself gives error 0 at every index |
| VerdictRuns.CountOfPositive | voxblox/include/voxblox/utils/evaluation_utils.h:89-105 | a verdict count is positive iff some pair in the run has that verdict |
| VerdictRuns.CountsPartitionRun | voxblox/include/voxblox/utils/evaluation_utils.h:89-105 | evaluated, ignored and non-overlapping counts add up to the number of pairs |
| VerdictRuns.SquaredErrorSumIsZero | voxblox/include/voxblox/utils/evaluation_utils.h:90-91 | the sum of squared errors is 0 iff every evaluated pair has error 0 |
| VerdictRuns.LargestErrorIsMaximum | voxblox/include/voxblox/utils/evaluation_utils.h:94-95 | the largest error bounds every evaluated pair's absolute error, and when positive some evaluated pair attains it |
| VerdictRuns.NegatedKeepsCounts | voxblox/include/voxblox/utils/evaluation_utils.h:89-105 | negating every error leaves each verdict count unchanged |
| VerdictRuns.NegatedKeepsSquaredErrorSum | voxblox/include/voxblox/utils/evaluation_utils.h:90-91 | negating every error leaves the sum of squared errors unchanged |
| VerdictRuns.NegatedKeepsLargestError | voxblox/include/voxblox/utils/evaluation_utils.h:94-95 | negating every error leaves the largest absolute error unchanged |
| Tallies.Combine | voxblox/include/voxblox/utils/evaluation_utils.h:89-105 | merging two records keeps soundness (overlapping = evaluated + ignored, non-negative statistics), anchoring of the error bounds, freedom from error, and count-only records |
| Tallies.CombineCounts | voxblox/include/voxblox/utils/evaluation_utils.h:89-105 | merging two sound records classifies exactly the pairs both classified |
| Tallies.CombineCommutes | voxblox/include/voxblox/utils/evaluation_utils.h:65-129 | the order in which two records are merged does not matter |
| Tallies.CombineAssociates | voxblox/include/voxblox/utils/evaluation_utils.h:65-129 | merging is associative, so blocks may be grouped freely |
| Tallies.ZeroIsNeutral | voxblox/include/voxblox/utils/evaluation_utils.h:61-63 | the all-zero starting record is neutral for records whose error bounds straddle 0 |
| Tallies.RecordPairIsCombine | voxblox/include/voxblox/utils/evaluation_utils.h:89-105 | the in-place switch update equals merging the running record with the pair's own contribution, for a record whose error bounds straddle 0, as every running record's do |
| Tallies.ContributionOfNegatedError | voxblox/include/voxblox/utils/evaluation_utils.h:90-95 | a pair's contribution depends on its error only through its magnitude |
| Tallies.RecordPair | voxblox/include/voxblox/utils/evaluation_utils.h:89-105 | exactly the counter the verdict names goes up by one, plus the overlapping counter for an evaluated or ignored pair; only an evaluated pair changes the error statistics, adding its square and widening the maximum and minimum to its magnitude; soundness is kept |
| Tallies.ExclusiveTally | voxblox/include/voxblox/utils/evaluation_utils.h:69-77 | a block held by one layer only adds the number of linear indices holding an observed voxel to the non-overlapping count, at most the block size, and touches nothing else |
| Tallies.SeqTally | voxblox/include/voxblox/utils/evaluation_utils.h:81-110 | the record of a run of verdicts is sound, has anchored error bounds and classifies every pair of the run |
| Tallies.SeqTallyAppend | voxblox/include/voxblox/utils/evaluation_utils.h:81-110 | recording one more pair merges its contribution into the run's record |
| Tallies.SeqTallyOfNegated | voxblox/include/voxblox/utils/evaluation_utils.h:90-95 | negating every error of a run leaves its record unchanged |
| Tallies.SharedTally | voxblox/include/voxblox/utils/evaluation_utils.h:79-110 | a shared block's record is sound and classifies one pair per common linear index |
| Totals.TotalRemove | voxblox/include/voxblox/utils/evaluation_utils.h:65-129 | the sum over the visited blocks can take any block out first, so visiting order does not matter |
| Totals.TotalSplit | voxblox/include/voxblox/utils/evaluation_utils.h:65-129 | the sum over two disjoint block sets is the merge of the two sums |
| Totals.TotalMinErrorZero | voxblox/include/voxblox/utils/evaluation_utils.h:92-93 | when every block's minimum error is exactly 0, the sum's minimum error is exactly 0 |
| Totals.TotalMaxAttained | voxblox/include/voxblox/utils/evaluation_utils.h:94-95 | a positive total maximum error is the maximum error of some block |
| Evaluation.Finalize | voxblox/include/voxblox/utils/evaluation_utils.h:131-137 | the RMSE is 0 when nothing was evaluated and otherwise the square root of mean squared error; every other field is copied from the running record |
| Evaluation.AddExclusiveBlock | voxblox/include/voxblox/utils/evaluation_utils.h:69-77 | the loop over a one-layer block merges exactly that block's observed-voxel count into the running record |
| Evaluation.AddSharedBlock | voxblox/include/voxblox/utils/evaluation_utils.h:79-110 | the loop over a shared block merges exactly that block's verdict record into the running record |
| Evaluation.RecordOneMore | voxblox/include/voxblox/utils/evaluation_utils.h:89-105 | one more switch update extends the record of the verdicts seen so far by the next verdict |
| Evaluation.AddTestBlock | voxblox/include/voxblox/utils/evaluation_utils.h:65-111 | visiting one test block merges the shared-block record when the ground truth holds the block, and the exclusive count otherwise |
| Evaluation.FirstPass | voxblox/include/voxblox/utils/evaluation_utils.h:56-111 | the first pass yields the sum of the test-pass contribution over every test block |
| Evaluation.AddGtBlock | voxblox/include/voxblox/utils/evaluation_utils.h:118-128 | visiting one ground-truth block adds its observed count only when the test layer lacks the block |
| Evaluation.SecondPass | voxblox/include/voxblox/utils/evaluation_utils.h:116-129 | the second pass merges the sum of the ground-truth-pass contribution over every ground-truth block |
| Evaluation.Evaluate | voxblox/include/voxblox/utils/evaluation_utils.h:49-137 | for any two layers the report is consistent: overlapping = evaluated + ignored, no count, error or RMSE is negative, the minimum error is 0, and the RMSE is 0 when nothing was evaluated |
| Evaluation.EvaluateLayersRmse | voxblox/include/voxblox/utils/evaluation_utils.h:49-156 | the returned details are the finalized record of both passes, and the returned RMSE is the details' RMSE |
| Evaluation.EvaluateRmse | voxblox/include/voxblox/utils/evaluation_utils.h:158-166 | the two-argument overload returns the RMSE of the IgnoreErrorBehindTestSurface evaluation |
| Properties.TestPassSplit | voxblox/include/voxblox/utils/evaluation_utils.h:65-111 | the test pass is the merge of the shared-block part and the test-only part |
| Properties.GtPassSplit | voxblox/include/voxblox/utils/evaluation_utils.h:116-129 | the ground-truth pass contributes exactly the ground-truth-only part |
| Properties.TwoPassDecomposition | voxblox/include/voxblox/utils/evaluation_utils.h:65-129 | the evaluator's record is shared part merged with test-only part merged with ground-truth-only part |
| Properties.SharedPartSound | voxblox/include/voxblox/utils/evaluation_utils.h:89-105 | the shared-block part keeps overlapping = evaluated + ignored with non-negative statistics |
| Properties.SharedPartClassifiesAllPairs | voxblox/include/voxblox/utils/evaluation_utils.h:81-110 | for compatible layers the shared part classifies exactly shared-block count × vps³ pairs |
| Properties.ExclusivePartOnlyCounts | voxblox/include/voxblox/utils/evaluation_utils.h:69-77 | one-layer blocks only ever move the non-overlapping count |
| Properties.CountingInvariants | voxblox/include/voxblox/utils/evaluation_utils.h:65-129 | overlapping = evaluated + ignored; evaluated + ignored + shared non-overlapping = shared blocks × vps³; non-overlapping = shared + test-only + ground-truth-only non-overlapping voxels |
| Properties.ErrorsComeFromSharedBlocks | voxblox/include/voxblox/utils/evaluation_utils.h:65-129 | squared-error sum, maximum error and evaluated count all come from shared blocks alone, and the minimum error is 0 |
| Properties.MinErrorStaysZero | voxblox/include/voxblox/utils/evaluation_utils.h:92-93 | the reported minimum error is always 0 |
| Properties.MaxErrorIsLargestEvaluatedError | voxblox/include/voxblox/utils/evaluation_utils.h:94-95 | the maximum error is non-negative, bounds every evaluated pair's absolute error, and when positive is attained by some evaluated pair |
| Properties.RmseIsRootMeanSquare | voxblox/include/voxblox/utils/evaluation_utils.h:131-137 | the RMSE is 0 when nothing was evaluated, and otherwise the non-negative root of squared-error sum over evaluated count |
| Properties.NoPairErrorMeansNoSquaredError | voxblox/include/voxblox/utils/evaluation_utils.h:90-95 | when every evaluated pair has error 0, the squared-error sum and the maximum error are 0 |
| Properties.NoSquaredErrorMeansNoPairError | voxblox/include/voxblox/utils/evaluation_utils.h:90-91 | a zero squared-error sum means every evaluated pair has error 0 |
| Properties.NoEvaluatedCountMeansNoEvaluatedPair | voxblox/include/voxblox/utils/evaluation_utils.h:96 | an evaluated count of 0 means no pair was evaluated |
| Properties.RmseIsZeroIffNoError | voxblox/include/voxblox/utils/evaluation_utils.h:131-137 | the RMSE is 0 iff every evaluated pair has error 0 |
| Properties.SharedPartSwapped | voxblox/include/voxblox/utils/evaluation_utils.h:45-47 | swapping the layers and mirroring the mode leaves the shared-block record unchanged |
| Properties.SwapSymmetry | voxblox/include/voxblox/utils/evaluation_utils.h:45-47 | swapping the layers and mirroring the mode gives identical details |
| Properties.SymmetricModes | voxblox/include/voxblox/utils/evaluation_utils.h:45-47 | under EvaluateAllVoxels and IgnoreErrorBehindAllSurfaces the comparison is symmetric; the two one-sided modes are each other's mirror |
| Properties.SelfComparisonIsExact | voxblox/include/voxblox/utils/evaluation_utils.h:131-137 | comparing a layer with itself gives RMSE 0 and maximum error 0 |
| Properties.EmptyLayersGiveZeros | voxblox/include/voxblox/utils/evaluation_utils.h:56-137 | two layers without blocks give all-zero details |
| Scenarios.OneSharedBlockReport | voxblox/include/voxblox/utils/evaluation_utils.h:65-129 | two layers holding the same single block give that block's shared record |
| Scenarios.SingleVoxelReport | voxblox/include/voxblox/utils/evaluation_utils.h:65-129 | two one-voxel layers at the same block give exactly the in-place update for the one pair applied to a fresh record |
| Scenarios.UnobservedSharedPairIsNonOverlapping | voxblox/include/voxblox/utils/evaluation_utils.h:172-178 | two one-voxel layers sharing their block, with either voxel or both unobserved, report one non-overlapping voxel |
| Scenarios.UnobservedOneLayerVoxelIsNotCounted | voxblox/include/voxblox/utils/evaluation_utils.h:69-128 | an unobserved voxel of a block held by one layer only adds nothing to the non-overlapping count, whichever layer holds it |
| Scenarios.EvaluatedPairDetails | voxblox/include/voxblox/utils/evaluation_utils.h:131-137 | one evaluated pair gives RMSE root of its squared error, maximum its magnitude, minimum 0 and counts 1/0/1/0 |
| Scenarios.IgnoredPairDetails | voxblox/include/voxblox/utils/evaluation_utils.h:99-102 | one ignored pair gives zero errors and counts 0/1/1/0 |
| Scenarios.PairInFrontOfBothSurfaces | voxblox/include/voxblox/utils/evaluation_utils.h:49-156 | ground truth 0.5 against test 0.3, both observed, gives an evaluated pair with error -0.2 and details RMSE 0.2, maximum 0.2, minimum 0, counts 1/0/1/0 in every mode |
| Scenarios.PairBehindGtSurfaceIgnored | voxblox/include/voxblox/utils/evaluation_utils.h:180-191 | ground truth -0.4 against test 0.1 under IgnoreErrorBehindGtSurface is ignored, giving zero errors and counts 0/1/1/0 |
| Scenarios.ThreeBlockSplit | voxblox/include/voxblox/utils/evaluation_utils.h:65-129 | with ground-truth blocks {a, b} and test blocks {a, c}, a is shared, c is test-only and b is ground-truth-only |
| Scenarios.ThreeBlockNonOverlapCount | voxblox/include/voxblox/utils/evaluation_utils.h:65-129 | with those blocks, non-overlapping = non-overlapping pairs of a + observed voxels of c + observed voxels of b, and a's evaluated + ignored + non-overlapping pairs fill one block |

## Left out

- The export of a TSDF layer's voxel distance, weight and colour to binary matrix files (autoencoder/matrix_file_writer.h) is not modelled. It is file I/O with per-voxel rescaling and is separate from the evaluator.
- The `LOG(INFO)` summary is not modelled; it is console output only.
- The `LOG(FATAL)` default of the result switch is not modelled. The verdict is a closed datatype, so that branch cannot occur.
- The optional details out-pointer, and `CHECK_NOTNULL` on the error out-pointer, are not modelled. The model always returns the details and the error as values.
- Float rounding is not modelled: distances, weights and errors are exact reals.
- `sqrt` is a parameter assumed to return the exact non-negative root.
- The `size_t` counters are unbounded integers. No realistic layer overflows them.
- Voxel size, layer origin, colour and other voxel payload are not modelled. The evaluator never reads them.
- Block storage and the hash-map iteration order are abstracted by a sum over the set of block indices.
- Evaluation.EvaluateLayersRmse: the vps³ bound comes from the test layer only, as in the source. The methods (`AddTestBlock`, `FirstPass`, `AddGtBlock`, `SecondPass`, `EvaluateLayersRmse`, `EvaluateRmse`) and the lemmas `SharedPartClassifiesAllPairs`, `CountingInvariants` and `ThreeBlockNonOverlapCount` require both layers to share vps and hold full blocks (`Compatible`), because the source reads every block through the test layer's vps³. The other layer-wide lemmas (`SwapSymmetry`, `SymmetricModes`, `RmseIsRootMeanSquare`, `MaxErrorIsLargestEvaluatedError`, `SelfComparisonIsExact`, `EmptyLayersGiveZeros` and the rest) are stated about `Evaluate` for any layers. `Evaluate` agrees with the source only on compatible layers. On others it compares common prefixes and counts whole blocks, where the source reads vps³ voxels of the test layer per block. For example, a ground truth with vps 2 and one observed 8-voxel block against an empty test layer with vps 1 gives 8 non-overlapping voxels in `Evaluate` but 1 in the source, and the source is not swap-symmetric on such layers.
- Tallies.ExclusiveTally: counts the observed voxels of the whole block, not those of the first test-vps³ linear indices the source reads. The two agree on compatible layers only.
- VerdictRuns.BlockVerdicts: two blocks of different lengths are compared over their common prefix. In a compatible pair of layers the two lengths are equal.
