/** The layer evaluator: a functional statement of what the two passes
    accumulate, and the two-pass method that walks the layers block by block
    and voxel by voxel as the evaluator does. */
module Evaluation {
  import opened Voxels
  import opened Comparison
  import opened VerdictRuns
  import opened Tallies
  import opened Totals

  /** The report returned to the caller. Counters are unbounded integers. */
  datatype Details = Details(
    rmse: real,
    maxError: real,
    minError: real,
    numEvaluatedVoxels: int,
    numIgnoredVoxels: int,
    numOverlappingVoxels: int,
    numNonOverlappingVoxels: int)

  /** r is the non-negative square root of x. */
  predicate IsRootOf(r: real, x: real) {
    0.0 <= r && r * r == x
  }

  /** What the model asks of the square root it is given: on non-negative
      arguments it returns the non-negative root. */
  ghost predicate IsSqrt(sqrt: real -> real) {
    forall x :: 0.0 <= x ==> IsRootOf(sqrt(x), x)
  }

  /** Turns the accumulated tally into the report: the RMSE is 0 when
      nothing was evaluated and otherwise the root of the mean squared
      error; every other field is copied. */
  function Finalize(t: Tally, sqrt: real -> real): (d: Details)
    requires IsSqrt(sqrt)
    ensures t.counts.evaluated == 0 ==> d.rmse == 0.0
    ensures t.counts.evaluated != 0 && t.errors.sumSquared / (t.counts.evaluated as real) >= 0.0 ==>
              IsRootOf(d.rmse, t.errors.sumSquared / (t.counts.evaluated as real))
    ensures d.maxError == t.errors.largest && d.minError == t.errors.smallest
    ensures d.numEvaluatedVoxels == t.counts.evaluated && d.numIgnoredVoxels == t.counts.ignored
    ensures d.numOverlappingVoxels == t.counts.overlapping && d.numNonOverlappingVoxels == t.counts.nonOverlapping
  {
    var rmse := if t.counts.evaluated == 0 then 0.0 else sqrt(t.errors.sumSquared / (t.counts.evaluated as real));
    Details(rmse, t.errors.largest, t.errors.smallest,
            t.counts.evaluated, t.counts.ignored, t.counts.overlapping, t.counts.nonOverlapping)
  }

  /** Blocks allocated in both layers. */
  function SharedBlocks(gt: Layer, test: Layer): set<BlockIndex> {
    gt.blocks.Keys * test.blocks.Keys
  }

  /** What the first pass adds for a block of the test layer: its pairs with
      the ground-truth block when there is one, otherwise its observed
      voxels as non-overlapping. */
  function TestPass(gt: Layer, test: Layer, mode: EvaluationMode): BlockIndex -> Tally {
    b =>
      if b !in test.blocks then Zero
      else if b in gt.blocks then SharedTally(gt.blocks[b], test.blocks[b], mode)
      else ExclusiveTally(test.blocks[b])
  }

  /** What the second pass adds for a block of the ground-truth layer: its
      observed voxels when the test layer lacks the block, nothing
      otherwise. */
  function GtPass(gt: Layer, test: Layer): BlockIndex -> Tally {
    b =>
      if b in gt.blocks && b !in test.blocks then ExclusiveTally(gt.blocks[b])
      else Zero
  }

  /** The tally both passes accumulate, whatever order the blocks are
      visited in. */
  ghost function Accumulate(gt: Layer, test: Layer, mode: EvaluationMode): (t: Tally)
    ensures Anchored(t)
  {
    Combine(Total(test.blocks.Keys, TestPass(gt, test, mode)), Total(gt.blocks.Keys, GtPass(gt, test)))
  }

  /** Every block either pass visits adds a sound tally whose minimum
      error is 0, so the sum of both passes is one too. */
  lemma AccumulateIsSound(gt: Layer, test: Layer, mode: EvaluationMode)
    ensures Sound(Accumulate(gt, test, mode))
    ensures Accumulate(gt, test, mode).errors.smallest == 0.0
  {
    var testPass, gtPass := TestPass(gt, test, mode), GtPass(gt, test);
    forall b | b in test.blocks.Keys
      ensures Sound(testPass(b)) && testPass(b).errors.smallest == 0.0
    {
    }
    forall b | b in gt.blocks.Keys
      ensures Sound(gtPass(b)) && gtPass(b).errors.smallest == 0.0
    {
    }
    TotalSound(test.blocks.Keys, testPass);
    TotalMinErrorZero(test.blocks.Keys, testPass);
    TotalSound(gt.blocks.Keys, gtPass);
    TotalMinErrorZero(gt.blocks.Keys, gtPass);
  }

  /** The report the evaluator returns. For any two layers it is
      consistent: overlapping = evaluated + ignored, no count or error
      statistic is negative, the minimum error is 0, and the RMSE is 0 when
      nothing was evaluated. */
  ghost function Evaluate(gt: Layer, test: Layer, mode: EvaluationMode, sqrt: real -> real): (d: Details)
    requires IsSqrt(sqrt)
    ensures d.numOverlappingVoxels == d.numEvaluatedVoxels + d.numIgnoredVoxels
    ensures d.numEvaluatedVoxels >= 0 && d.numIgnoredVoxels >= 0 && d.numNonOverlappingVoxels >= 0
    ensures d.rmse >= 0.0 && d.maxError >= 0.0 && d.minError == 0.0
    ensures d.numEvaluatedVoxels == 0 ==> d.rmse == 0.0
  {
    AccumulateIsSound(gt, test, mode);
    Finalize(Accumulate(gt, test, mode), sqrt)
  }

  /** Counts the observed voxels of a block present in one layer only as
      non-overlapping, one linear index at a time. */
  method AddExclusiveBlock(acc: Tally, block: seq<Voxel>, numVoxelsPerBlock: nat) returns (next: Tally)
    requires Anchored(acc) && numVoxelsPerBlock == |block|
    ensures next == Combine(acc, ExclusiveTally(block))
  {
    next := acc;
    var i := 0;
    while i < numVoxelsPerBlock
      invariant 0 <= i <= numVoxelsPerBlock
      invariant next == acc.(counts := acc.counts.(nonOverlapping := acc.counts.nonOverlapping + CountObserved(block[..i])))
    {
      CountObservedOneMore(block, i);
      if IsObserved(block[i]) {
        next := next.(counts := next.counts.(nonOverlapping := next.counts.nonOverlapping + 1));
      }
      i := i + 1;
    }
    assert block[..numVoxelsPerBlock] == block;
  }

  /** Compares a block allocated in both layers pair by pair, applying the
      evaluator's in-place update for each verdict. */
  method AddSharedBlock(acc: Tally, gtBlock: seq<Voxel>, testBlock: seq<Voxel>, mode: EvaluationMode,
                        numVoxelsPerBlock: nat) returns (next: Tally)
    requires Anchored(acc)
    requires numVoxelsPerBlock == |gtBlock| && numVoxelsPerBlock == |testBlock|
    ensures next == Combine(acc, SharedTally(gtBlock, testBlock, mode))
  {
    ghost var es := BlockVerdicts(gtBlock, testBlock, mode);
    assert es[..0] == [];
    ZeroIsNeutral(acc);
    next := acc;
    var i := 0;
    while i < numVoxelsPerBlock
      invariant 0 <= i <= numVoxelsPerBlock
      invariant next == Combine(acc, SeqTally(es[..i]))
    {
      var e := ComputeVoxelError(gtBlock[i], testBlock[i], mode);
      assert e == es[i];
      RecordOneMore(acc, es, i, next);
      next := RecordPair(next, e);
      i := i + 1;
    }
    assert es[..numVoxelsPerBlock] == es;
  }

  /** Recording the next verdict in place keeps the running tally equal to
      the merge of the starting tally and the tally of the verdicts seen. */
  lemma RecordOneMore(acc: Tally, es: seq<PairError>, i: nat, running: Tally)
    requires Anchored(acc) && i < |es|
    requires running == Combine(acc, SeqTally(es[..i]))
    ensures RecordPair(running, es[i]) == Combine(acc, SeqTally(es[..i + 1]))
  {
    TakeOneMore(es, i);
    RecordPairIsCombine(running, es[i]);
    SeqTallyAppend(es[..i], es[i]);
    CombineAssociates(acc, SeqTally(es[..i]), Contribution(es[i]));
  }

  /** One step of the first pass: the test block at b, against the
      ground-truth block there if there is one. */
  method AddTestBlock(acc: Tally, gt: Layer, test: Layer, mode: EvaluationMode, b: BlockIndex,
                      numVoxelsPerBlock: nat) returns (next: Tally)
    requires Compatible(gt, test) && numVoxelsPerBlock == VoxelsPerBlock(test.voxelsPerSide)
    requires Anchored(acc) && b in test.blocks
    ensures next == Combine(acc, TestPass(gt, test, mode)(b))
  {
    var testBlock := test.blocks[b];
    if b !in gt.blocks {
      next := AddExclusiveBlock(acc, testBlock, numVoxelsPerBlock);
    } else {
      next := AddSharedBlock(acc, gt.blocks[b], testBlock, mode, numVoxelsPerBlock);
    }
  }

  /** The first pass: every block of the test layer, in an unspecified
      order. */
  method FirstPass(gt: Layer, test: Layer, mode: EvaluationMode, numVoxelsPerBlock: nat) returns (acc: Tally)
    requires Compatible(gt, test) && numVoxelsPerBlock == VoxelsPerBlock(test.voxelsPerSide)
    ensures acc == Total(test.blocks.Keys, TestPass(gt, test, mode))
  {
    var testPass := TestPass(gt, test, mode);
    acc := Zero;
    var pending := test.blocks.Keys;
    assert test.blocks.Keys - pending == {};
    while pending != {}
      invariant pending <= test.blocks.Keys
      invariant acc == Total(test.blocks.Keys - pending, testPass)
      decreases |pending|
    {
      var b :| b in pending;
      acc := AddTestBlock(acc, gt, test, mode, b, numVoxelsPerBlock);
      VisitOneMore(test.blocks.Keys, pending, testPass, b);
      pending := pending - {b};
    }
    assert test.blocks.Keys - pending == test.blocks.Keys;
  }

  /** Visiting one more pending key merges its tally into the total of the
      keys visited so far. */
  lemma VisitOneMore<K>(keys: set<K>, pending: set<K>, f: K -> Tally, b: K)
    requires pending <= keys && b in pending
    ensures Total(keys - (pending - {b}), f) == Combine(Total(keys - pending, f), f(b))
  {
    assert keys - (pending - {b}) == (keys - pending) + {b};
    TotalInsert(keys - pending, f, b);
  }

  /** One step of the second pass: the ground-truth block at b adds its
      observed voxels only when the test layer lacks that block. */
  method AddGtBlock(acc: Tally, gt: Layer, test: Layer, b: BlockIndex, numVoxelsPerBlock: nat)
    returns (next: Tally)
    requires Compatible(gt, test) && numVoxelsPerBlock == VoxelsPerBlock(test.voxelsPerSide)
    requires Anchored(acc) && b in gt.blocks
    ensures next == Combine(acc, GtPass(gt, test)(b))
  {
    if b !in test.blocks {
      next := AddExclusiveBlock(acc, gt.blocks[b], numVoxelsPerBlock);
    } else {
      ZeroIsNeutral(acc);
      next := acc;
    }
  }

  /** The second pass: every block of the ground-truth layer, in an
      unspecified order; only those the test layer lacks add anything. */
  method SecondPass(gt: Layer, test: Layer, firstPass: Tally, numVoxelsPerBlock: nat) returns (acc: Tally)
    requires Compatible(gt, test) && numVoxelsPerBlock == VoxelsPerBlock(test.voxelsPerSide)
    requires Anchored(firstPass)
    ensures acc == Combine(firstPass, Total(gt.blocks.Keys, GtPass(gt, test)))
  {
    var gtPass := GtPass(gt, test);
    ZeroIsNeutral(firstPass);
    acc := firstPass;
    var pending := gt.blocks.Keys;
    assert gt.blocks.Keys - pending == {};
    while pending != {}
      invariant pending <= gt.blocks.Keys
      invariant acc == Combine(firstPass, Total(gt.blocks.Keys - pending, gtPass))
      decreases |pending|
    {
      var b :| b in pending;
      ghost var visited := Total(gt.blocks.Keys - pending, gtPass);
      acc := AddGtBlock(acc, gt, test, b, numVoxelsPerBlock);
      VisitOneMore(gt.blocks.Keys, pending, gtPass, b);
      CombineAssociates(firstPass, visited, gtPass(b));
      pending := pending - {b};
    }
    assert gt.blocks.Keys - pending == gt.blocks.Keys;
  }

  /** Compares a test layer against a ground-truth layer. The first pass
      walks the test blocks: blocks the ground truth lacks add their observed
      voxels as non-overlapping, shared blocks are compared voxel by voxel.
      The second pass walks the ground-truth blocks the test layer lacks and
      adds their observed voxels. */
  method EvaluateLayersRmse(gt: Layer, test: Layer, mode: EvaluationMode, sqrt: real -> real)
    returns (rmse: real, details: Details)
    requires Compatible(gt, test)
    requires IsSqrt(sqrt)
    ensures details == Evaluate(gt, test, mode, sqrt)
    ensures rmse == details.rmse
  {
    var numVoxelsPerBlock := VoxelsPerBlock(test.voxelsPerSide);
    var firstPass := FirstPass(gt, test, mode, numVoxelsPerBlock);
    var acc := SecondPass(gt, test, firstPass, numVoxelsPerBlock);
    details := Finalize(acc, sqrt);
    rmse := details.rmse;
  }

  /** The two-argument form: errors behind the test surface are ignored. */
  method EvaluateRmse(gt: Layer, test: Layer, sqrt: real -> real) returns (rmse: real)
    requires Compatible(gt, test)
    requires IsSqrt(sqrt)
    ensures rmse == Evaluate(gt, test, IgnoreErrorBehindTestSurface, sqrt).rmse
  {
    var details;
    rmse, details := EvaluateLayersRmse(gt, test, IgnoreErrorBehindTestSurface, sqrt);
  }
}
