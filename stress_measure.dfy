/**
 * The stress measure the population tables use (calcStress, written out the
 * same way in CrossStressTable.tsx, StressDeptYearsTable.tsx and
 * RegressionAnalysis.tsx): the answers of items 18-46 added as they are,
 * except that item 27 counts 5 - v when its answer v is in 1..4. A missing
 * answer counts 0; an answer outside 1..4 is added unchanged.
 * Also the one-decimal average those tables show.
 */
module StressMeasure {
  import opened DomainScoring
  import opened Rounding

  /** The value item q adds. */
  function ItemValue(q: int, v: int): int {
    if q == 27 && ValidAnswer(v) then 5 - v else v
  }

  /** The values of items lo .. hi-1 added up. */
  function StressSum(responses: Responses, lo: int, hi: int): int
    decreases hi - lo
  {
    if hi <= lo then 0 else StressSum(responses, lo, hi - 1) + ItemValue(hi - 1, Answer(responses, hi - 1))
  }

  /** The first item the measure adds, and the one past the last: items 18-46, the stress reactions. */
  function FirstStressItem(): int { 18 }
  function EndStressItem(): int { 47 }

  /** The measure of one questionnaire. */
  function StressOf(responses: Responses): int {
    StressSum(responses, FirstStressItem(), EndStressItem())
  }

  /** calcStress */
  method CalcStress(responses: Responses) returns (sum: int)
    ensures sum == StressOf(responses)
  {
    sum := 0;
    for q := 18 to 47
      invariant sum == StressSum(responses, 18, q)
    {
      var v := if q in responses then responses[q] else 0;
      if q == 27 {
        if v >= 1 && v <= 4 {
          v := 5 - v;
        }
      }
      sum := sum + v;
    }
  }

  lemma {:induction false} StressSumBounds(responses: Responses, lo: int, hi: int)
    requires lo <= hi
    requires forall q :: lo <= q < hi ==> ValidAnswer(Answer(responses, q))
    ensures hi - lo <= StressSum(responses, lo, hi) <= 4 * (hi - lo)
    decreases hi - lo
  {
    if hi > lo {
      StressSumBounds(responses, lo, hi - 1);
    }
  }

  /** With every answer of items 18-46 in 1..4 the measure lies in [29, 116]. */
  lemma StressBounds(responses: Responses)
    requires forall q :: 18 <= q <= 46 ==> ValidAnswer(Answer(responses, q))
    ensures 29 <= StressOf(responses) <= 116
  {
    StressSumBounds(responses, 18, 47);
  }

  /** Changing one answer of the range changes the measure by the difference of that item's values. */
  lemma {:induction false} StressSumUpdate(responses: Responses, lo: int, hi: int, q: int, v: int)
    requires lo <= q < hi
    ensures StressSum(responses[q := v], lo, hi)
      == StressSum(responses, lo, hi) - ItemValue(q, Answer(responses, q)) + ItemValue(q, v)
    decreases hi - lo
  {
    if hi - 1 == q {
      StressSumUnchanged(responses, lo, q, q, v);
    } else {
      StressSumUpdate(responses, lo, hi - 1, q, v);
    }
  }

  lemma {:induction false} StressSumUnchanged(responses: Responses, lo: int, hi: int, q: int, v: int)
    requires hi <= q
    ensures StressSum(responses[q := v], lo, hi) == StressSum(responses, lo, hi)
    decreases hi - lo
  {
    if hi > lo {
      StressSumUnchanged(responses, lo, hi - 1, q, v);
    }
  }

  /**
   * Out-of-range answers are not zeroed: setting an item other than 27 to any
   * value v adds exactly v, where a missing answer adds 0.
   */
  lemma AnswerAddsAsIs(responses: Responses, q: int, v: int)
    requires 18 <= q <= 46 && q != 27 && q !in responses
    ensures StressOf(responses[q := v]) == StressOf(responses) + v
  {
    StressSumUpdate(responses, 18, 47, q, v);
  }

  lemma {:induction false} StressAgainstNormal(responses: Responses, lo: int, hi: int)
    requires 18 <= lo <= hi <= 47
    requires forall q :: lo <= q < hi ==> ValidAnswer(Answer(responses, q))
    ensures StressSum(responses, lo, hi) + NormalSum(responses, lo, hi)
      == 5 * (hi - lo) + (if lo <= 27 < hi then 5 - 2 * Answer(responses, 27) else 0)
    decreases hi - lo
  {
    if hi > lo {
      StressAgainstNormal(responses, lo, hi - 1);
    }
  }

  /**
   * Against the B domain score of calculateScore, which counts 5 - v for all of
   * items 18-46: with every answer in 1..4, measure + B = 150 - 2 v27, so the
   * measure points the other way except on item 27.
   */
  lemma StressVersusDomainB(responses: Responses)
    requires forall q :: 18 <= q <= 46 ==> ValidAnswer(Answer(responses, q))
    ensures StressOf(responses) + DomainScoresOf(responses).B == 150 - 2 * Answer(responses, 27)
  {
    StressAgainstNormal(responses, 18, 47);
  }

  /**
   * average: 0 for an empty list, otherwise the mean half-up to one decimal,
   * in tenths.
   */
  function AverageTenths(xs: seq<int>): int {
    if xs == [] then 0 else RoundTenths(Sum(xs), |xs|)
  }

  /** The empty list averages 0; otherwise r / 10 is within half a tenth of the mean, ties going up. */
  lemma AverageTenthsSpec(xs: seq<int>)
    ensures xs == [] ==> AverageTenths(xs) == 0
    ensures xs != [] ==> |xs| * (2 * AverageTenths(xs) - 1) <= 20 * Sum(xs) < |xs| * (2 * AverageTenths(xs) + 1)
  {
    if xs != [] {
      RoundTenthsSpec(Sum(xs), |xs|);
    }
  }

  /** The average of values in [lo, hi] lies in [10 lo, 10 hi] tenths; a constant list averages to itself. */
  lemma AverageBounds(xs: seq<int>, lo: int, hi: int)
    requires xs != []
    requires forall i :: 0 <= i < |xs| ==> lo <= xs[i] <= hi
    ensures 10 * lo <= AverageTenths(xs) <= 10 * hi
    ensures lo == hi ==> AverageTenths(xs) == 10 * lo
  {
    RoundTenthsBounds(xs, lo, hi);
  }
}
