/** Runs of verdicts, one per linear index of two blocks, and the statistics
    the evaluator draws from them, each defined on its own. */
module VerdictRuns {
  import opened Voxels
  import opened Comparison

  function Abs(x: real): real {
    if x < 0.0 then -x else x
  }

  function Square(x: real): (r: real)
    ensures r >= 0.0
  {
    x * x
  }

  /** A square vanishes only at zero. */
  lemma SquareIsZeroOnlyAtZero(x: real)
    ensures Square(x) == 0.0 <==> x == 0.0
  {
    if x > 0.0 {
      calc {
        Square(x);
      ==
        x * x;
      >
        0.0;
      }
    } else if x < 0.0 {
      calc {
        Square(x);
      ==
        (-x) * (-x);
      >
        0.0;
      }
    }
  }

  /** Number of linear indices both blocks hold. */
  function CommonLength(gtBlock: seq<Voxel>, testBlock: seq<Voxel>): (n: nat)
    ensures n <= |gtBlock| && n <= |testBlock|
    ensures n == |gtBlock| || n == |testBlock|
  {
    if |gtBlock| < |testBlock| then |gtBlock| else |testBlock|
  }

  /** The verdicts on the pairs of two blocks, index by index: a pair
      overlaps iff both voxels are observed, an overlapping pair gets the
      mode's decision, and an evaluated pair carries sdf(test) - sdf(gt). */
  function BlockVerdicts(gtBlock: seq<Voxel>, testBlock: seq<Voxel>, mode: EvaluationMode): (es: seq<PairError>)
    ensures |es| == CommonLength(gtBlock, testBlock)
    ensures forall i :: 0 <= i < |es| ==>
              (es[i].result == NoOverlap <==> !IsObserved(gtBlock[i]) || !IsObserved(testBlock[i]))
    ensures forall i :: 0 <= i < |es| && IsObserved(gtBlock[i]) && IsObserved(testBlock[i]) ==>
              es[i].result == Decision(mode, Sdf(gtBlock[i]), Sdf(testBlock[i]))
    ensures forall i :: 0 <= i < |es| ==>
              if es[i].result == Evaluated then es[i].error == Sdf(testBlock[i]) - Sdf(gtBlock[i])
              else es[i].error == 0.0
  {
    seq(CommonLength(gtBlock, testBlock), i requires 0 <= i < CommonLength(gtBlock, testBlock) =>
      ComputeVoxelError(gtBlock[i], testBlock[i], mode))
  }

  /** Taking one more element of a sequence appends it. */
  lemma TakeOneMore<T>(s: seq<T>, i: nat)
    requires i < |s|
    ensures s[..i + 1] == s[..i] + [s[i]]
  {
  }

  /** The same verdicts with every error negated. */
  function Negated(es: seq<PairError>): (ns: seq<PairError>)
    ensures |ns| == |es|
  {
    seq(|es|, i requires 0 <= i < |es| => PairError(es[i].result, -es[i].error))
  }

  /** Trading the blocks and mirroring the mode keeps every pair's verdict
      and negates every error. */
  lemma SwappedBlockVerdicts(gtBlock: seq<Voxel>, testBlock: seq<Voxel>, mode: EvaluationMode)
    ensures BlockVerdicts(testBlock, gtBlock, Mirror(mode)) == Negated(BlockVerdicts(gtBlock, testBlock, mode))
  {
    var es := BlockVerdicts(gtBlock, testBlock, mode);
    var ss := BlockVerdicts(testBlock, gtBlock, Mirror(mode));
    forall i | 0 <= i < |es|
      ensures ss[i] == Negated(es)[i]
    {
      SwappedPairNegatesError(gtBlock[i], testBlock[i], mode);
    }
  }

  /** A block compared with itself: no verdict carries error. */
  lemma SelfVerdictsHaveNoError(block: seq<Voxel>, mode: EvaluationMode)
    ensures forall i :: 0 <= i < |block| ==> BlockVerdicts(block, block, mode)[i].error == 0.0
  {
    forall i | 0 <= i < |block|
      ensures BlockVerdicts(block, block, mode)[i].error == 0.0
    {
      SelfComparisonHasNoError(block[i], mode);
    }
  }

  /** Number of verdicts in the run that are the given result. */
  function CountOf(es: seq<PairError>, result: EvaluationResult): (n: nat)
    ensures n <= |es|
  {
    if |es| == 0 then 0
    else CountOf(es[..|es| - 1], result) + (if es[|es| - 1].result == result then 1 else 0)
  }

  /** The count is positive exactly when some verdict has that result. */
  lemma {:induction false} CountOfPositive(es: seq<PairError>, result: EvaluationResult)
    ensures CountOf(es, result) > 0 <==> exists i :: 0 <= i < |es| && es[i].result == result
  {
    if |es| > 0 {
      var prefix := es[..|es| - 1];
      CountOfPositive(prefix, result);
      assert forall i :: 0 <= i < |prefix| ==> prefix[i] == es[i];
    }
  }

  /** Every verdict has exactly one of the three results. */
  lemma {:induction false} CountsPartitionRun(es: seq<PairError>)
    ensures CountOf(es, Evaluated) + CountOf(es, Ignored) + CountOf(es, NoOverlap) == |es|
  {
    if |es| > 0 {
      CountsPartitionRun(es[..|es| - 1]);
    }
  }

  /** Sum of the squared errors of the evaluated verdicts. */
  function SquaredErrorSum(es: seq<PairError>): (s: real)
    ensures s >= 0.0
  {
    if |es| == 0 then 0.0
    else
      var last := es[|es| - 1];
      SquaredErrorSum(es[..|es| - 1]) + (if last.result == Evaluated then Square(last.error) else 0.0)
  }

  /** The sum is zero exactly when every evaluated verdict has error 0. */
  lemma {:induction false} SquaredErrorSumIsZero(es: seq<PairError>)
    ensures SquaredErrorSum(es) == 0.0 <==>
              forall i :: 0 <= i < |es| && es[i].result == Evaluated ==> es[i].error == 0.0
  {
    if |es| > 0 {
      var prefix := es[..|es| - 1];
      var last := es[|es| - 1];
      SquaredErrorSumIsZero(prefix);
      SquareIsZeroOnlyAtZero(last.error);
      assert forall i :: 0 <= i < |prefix| ==> prefix[i] == es[i];
    }
  }

  /** Largest error magnitude among the evaluated verdicts, 0 if there is
      none. */
  function LargestError(es: seq<PairError>): (m: real)
    ensures m >= 0.0
  {
    if |es| == 0 then 0.0
    else
      var prior := LargestError(es[..|es| - 1]);
      var last := es[|es| - 1];
      if last.result == Evaluated && prior < Abs(last.error) then Abs(last.error) else prior
  }

  /** The largest error bounds every evaluated verdict's error magnitude
      and, when positive, is the magnitude of one of them. */
  lemma {:induction false} LargestErrorIsMaximum(es: seq<PairError>)
    ensures forall i :: 0 <= i < |es| && es[i].result == Evaluated ==> Abs(es[i].error) <= LargestError(es)
    ensures LargestError(es) > 0.0 ==>
              exists i :: 0 <= i < |es| && es[i].result == Evaluated && Abs(es[i].error) == LargestError(es)
  {
    if |es| > 0 {
      var prefix := es[..|es| - 1];
      LargestErrorIsMaximum(prefix);
      assert forall i :: 0 <= i < |prefix| ==> prefix[i] == es[i];
    }
  }

  /** Negating every error keeps the count of each result. */
  lemma {:induction false} NegatedKeepsCounts(es: seq<PairError>, result: EvaluationResult)
    ensures CountOf(Negated(es), result) == CountOf(es, result)
  {
    if |es| > 0 {
      var prefix := es[..|es| - 1];
      assert Negated(es)[..|es| - 1] == Negated(prefix);
      NegatedKeepsCounts(prefix, result);
    }
  }

  /** Negating every error keeps the sum of squared errors. */
  lemma {:induction false} NegatedKeepsSquaredErrorSum(es: seq<PairError>)
    ensures SquaredErrorSum(Negated(es)) == SquaredErrorSum(es)
  {
    if |es| > 0 {
      var prefix := es[..|es| - 1];
      var last := es[|es| - 1];
      assert Negated(es)[..|es| - 1] == Negated(prefix);
      assert Square(-last.error) == Square(last.error);
      NegatedKeepsSquaredErrorSum(prefix);
    }
  }

  /** Negating every error keeps the largest error magnitude. */
  lemma {:induction false} NegatedKeepsLargestError(es: seq<PairError>)
    ensures LargestError(Negated(es)) == LargestError(es)
  {
    if |es| > 0 {
      var prefix := es[..|es| - 1];
      assert Negated(es)[..|es| - 1] == Negated(prefix);
      NegatedKeepsLargestError(prefix);
    }
  }
}
