/** The evaluator's running state: the details record before the RMSE is
    filled in, plus the running sum of squared errors. */
module Tallies {
  import opened Voxels
  import opened Comparison
  import opened VerdictRuns

  /** The error statistics of the running record: the sum of squared
      errors, and the largest and smallest error magnitude seen. */
  datatype ErrorStats = ErrorStats(sumSquared: real, largest: real, smallest: real)

  /** The voxel counters of the running record, kept as unbounded integers;
      Sound states they are never negative. */
  datatype Counters = Counters(evaluated: int, ignored: int, overlapping: int, nonOverlapping: int)

  /** The running record: the details fields other than the RMSE, with the
      sum of squared errors in place of the RMSE. */
  datatype Tally = Tally(errors: ErrorStats, counts: Counters)

  const NoErrors: ErrorStats := ErrorStats(0.0, 0.0, 0.0)
  const NoCounts: Counters := Counters(0, 0, 0, 0)

  /** The state the evaluator starts from: every field zero. */
  const Zero: Tally := Tally(NoErrors, NoCounts)

  function Max(a: real, b: real): real {
    if a < b then b else a
  }

  function Min(a: real, b: real): real {
    if b < a then b else a
  }

  /** Number of voxel pairs or voxels the tally has put in a counter. */
  function Classified(t: Tally): int {
    t.counts.evaluated + t.counts.ignored + t.counts.nonOverlapping
  }

  /** What every tally built from voxel pairs keeps: non-negative counters
      and error statistics, and overlapping = evaluated + ignored. */
  predicate Sound(t: Tally) {
    && t.counts.evaluated >= 0 && t.counts.ignored >= 0 && t.counts.nonOverlapping >= 0
    && t.errors.sumSquared >= 0.0
    && t.errors.largest >= 0.0
    && t.errors.smallest >= 0.0
    && t.counts.overlapping == t.counts.evaluated + t.counts.ignored
  }

  /** The error bounds straddle zero, as they do for any tally started from
      Zero. On such tallies Zero is neutral for Combine. */
  predicate Anchored(t: Tally) {
    t.errors.largest >= 0.0 && t.errors.smallest <= 0.0
  }

  /** A tally that holds no error at all. */
  predicate ErrorFree(t: Tally) {
    t.errors.sumSquared == 0.0 && t.errors.largest == 0.0
  }

  /** A tally that only counts non-overlapping voxels, as the blocks present
      in one layer only produce. */
  predicate OnlyNonOverlapping(t: Tally) {
    && t.errors.sumSquared == 0.0 && t.errors.largest == 0.0 && t.errors.smallest == 0.0
    && t.counts.evaluated == 0 && t.counts.ignored == 0 && t.counts.overlapping == 0
  }

  /** Merges two tallies: counters and squared errors add up, the error
      bounds take the larger maximum and the smaller minimum. */
  function Combine(a: Tally, b: Tally): (t: Tally)
    ensures Sound(a) && Sound(b) ==> Sound(t)
    ensures Anchored(a) || Anchored(b) ==> Anchored(t)
    ensures ErrorFree(a) && ErrorFree(b) ==> ErrorFree(t)
    ensures OnlyNonOverlapping(a) && OnlyNonOverlapping(b) ==> OnlyNonOverlapping(t)
  {
    Tally(
      ErrorStats(
        a.errors.sumSquared + b.errors.sumSquared,
        Max(a.errors.largest, b.errors.largest),
        Min(a.errors.smallest, b.errors.smallest)),
      Counters(
        a.counts.evaluated + b.counts.evaluated,
        a.counts.ignored + b.counts.ignored,
        a.counts.overlapping + b.counts.overlapping,
        a.counts.nonOverlapping + b.counts.nonOverlapping))
  }

  /** Merging adds up the classified counts and keeps soundness. */
  lemma CombineCounts(a: Tally, b: Tally)
    requires Sound(a) && Sound(b)
    ensures Sound(Combine(a, b))
    ensures Classified(Combine(a, b)) == Classified(a) + Classified(b)
  {
  }

  lemma CombineCommutes(a: Tally, b: Tally)
    ensures Combine(a, b) == Combine(b, a)
  {
  }

  lemma CombineAssociates(a: Tally, b: Tally, c: Tally)
    ensures Combine(Combine(a, b), c) == Combine(a, Combine(b, c))
  {
  }

  lemma ZeroIsNeutral(t: Tally)
    requires Anchored(t)
    ensures Combine(Zero, t) == t && Combine(t, Zero) == t
  {
  }

  /** The update the evaluator applies in place for one classified pair:
      the counter the verdict names goes up by one (with the overlapping
      counter for an overlapping verdict), and only an evaluated pair
      touches the error statistics, adding its square and widening the
      bounds to its magnitude. */
  function RecordPair(acc: Tally, e: PairError): (r: Tally)
    ensures r.counts.evaluated == acc.counts.evaluated + (if e.result == Evaluated then 1 else 0)
    ensures r.counts.ignored == acc.counts.ignored + (if e.result == Ignored then 1 else 0)
    ensures r.counts.nonOverlapping == acc.counts.nonOverlapping + (if e.result == NoOverlap then 1 else 0)
    ensures r.counts.overlapping == acc.counts.overlapping + (if e.result == NoOverlap then 0 else 1)
    ensures Classified(r) == Classified(acc) + 1
    ensures e.result != Evaluated ==> r.errors == acc.errors
    ensures e.result == Evaluated ==>
              && r.errors.sumSquared == acc.errors.sumSquared + Square(e.error)
              && r.errors.largest >= acc.errors.largest && r.errors.largest >= Abs(e.error)
              && (r.errors.largest == acc.errors.largest || r.errors.largest == Abs(e.error))
              && r.errors.smallest <= acc.errors.smallest && r.errors.smallest <= Abs(e.error)
              && (r.errors.smallest == acc.errors.smallest || r.errors.smallest == Abs(e.error))
    ensures Sound(acc) ==> Sound(r)
  {
    match e.result
    case Evaluated =>
      Tally(
        ErrorStats(acc.errors.sumSquared + Square(e.error),
                   Max(acc.errors.largest, Abs(e.error)),
                   Min(acc.errors.smallest, Abs(e.error))),
        acc.counts.(evaluated := acc.counts.evaluated + 1,
                    overlapping := acc.counts.overlapping + 1))
    case Ignored =>
      acc.(counts := acc.counts.(ignored := acc.counts.ignored + 1,
                                 overlapping := acc.counts.overlapping + 1))
    case NoOverlap =>
      acc.(counts := acc.counts.(nonOverlapping := acc.counts.nonOverlapping + 1))
  }

  /** What one classified pair contributes on its own: exactly one counter
      moves. */
  function Contribution(e: PairError): Tally
  {
    var evaluated := e.result == Evaluated;
    Tally(
      ErrorStats(
        if evaluated then Square(e.error) else 0.0,
        if evaluated then Abs(e.error) else 0.0,
        if evaluated then Abs(e.error) else 0.0),
      Counters(
        if evaluated then 1 else 0,
        if e.result == Ignored then 1 else 0,
        if e.result == NoOverlap then 0 else 1,
        if e.result == NoOverlap then 1 else 0))
  }

  /** The in-place update is the same as merging in the pair's own
      contribution, for every accumulator whose bounds straddle zero. */
  lemma RecordPairIsCombine(acc: Tally, e: PairError)
    requires Anchored(acc)
    ensures RecordPair(acc, e) == Combine(acc, Contribution(e))
  {
  }

  /** A contribution depends on the error only through its magnitude. */
  lemma ContributionOfNegatedError(result: EvaluationResult, error: real)
    ensures Contribution(PairError(result, -error)) == Contribution(PairError(result, error))
  {
  }

  /** What a block allocated in one layer only contributes: each of its
      observed voxels counts as non-overlapping, and nothing else moves. */
  function ExclusiveTally(block: seq<Voxel>): (t: Tally)
    ensures Sound(t) && OnlyNonOverlapping(t)
    ensures t.counts.nonOverlapping == |ObservedIndices(block)|
    ensures t.counts.nonOverlapping <= |block|
  {
    Tally(NoErrors, NoCounts.(nonOverlapping := CountObserved(block)))
  }

  /** Tally of a run of verdicts, read off the run's own statistics: the
      counts of each result, the sum of squared errors and the largest error
      magnitude of the evaluated verdicts. The minimum error is 0 because
      the evaluator starts it at 0 and only ever lowers it towards a
      magnitude, which is never negative. */
  function SeqTally(es: seq<PairError>): (t: Tally)
    ensures Sound(t) && Anchored(t)
    ensures Classified(t) == |es|
  {
    CountsPartitionRun(es);
    var evaluated := CountOf(es, Evaluated);
    var ignored := CountOf(es, Ignored);
    Tally(ErrorStats(SquaredErrorSum(es), LargestError(es), 0.0),
          Counters(evaluated, ignored, evaluated + ignored, CountOf(es, NoOverlap)))
  }

  /** Extending a run by one verdict is exactly merging in that verdict's
      contribution: the evaluator's one-pair update keeps the tally equal
      to the statistics of the pairs seen so far. */
  lemma SeqTallyAppend(es: seq<PairError>, e: PairError)
    ensures SeqTally(es + [e]) == Combine(SeqTally(es), Contribution(e))
  {
    var longer := es + [e];
    assert longer[..|es|] == es;
    assert longer[|es|] == e;
  }

  /** Negating every error leaves the tally unchanged. */
  lemma SeqTallyOfNegated(es: seq<PairError>)
    ensures SeqTally(Negated(es)) == SeqTally(es)
  {
    NegatedKeepsCounts(es, Evaluated);
    NegatedKeepsCounts(es, Ignored);
    NegatedKeepsCounts(es, NoOverlap);
    NegatedKeepsSquaredErrorSum(es);
    NegatedKeepsLargestError(es);
  }

  /** What a block allocated in both layers contributes. */
  function SharedTally(gtBlock: seq<Voxel>, testBlock: seq<Voxel>, mode: EvaluationMode): (t: Tally)
    ensures Sound(t) && Anchored(t)
    ensures Classified(t) == CommonLength(gtBlock, testBlock)
  {
    SeqTally(BlockVerdicts(gtBlock, testBlock, mode))
  }
}
