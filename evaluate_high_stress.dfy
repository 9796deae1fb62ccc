/**
 * The high-stress criterion: B >= 77, or A + C >= 76 together with B >= 63.
 */
module HighStress {
  import opened DomainScoring

  predicate IsHighStress(d: DomainScores) {
    d.B >= 77 || (d.A + d.C >= 76 && d.B >= 63)
  }

  /** The three bands of B: at 77 or more always, below 63 never, in between exactly when A + C reaches 76. */
  lemma HighStressBands(d: DomainScores)
    ensures d.B >= 77 ==> IsHighStress(d)
    ensures d.B < 63 ==> !IsHighStress(d)
    ensures 63 <= d.B < 77 ==> (IsHighStress(d) <==> d.A + d.C >= 76)
  {
  }

  /** Raising any of A, B or C never turns a high-stress result into a normal one. */
  lemma HighStressMonotone(d: DomainScores, e: DomainScores)
    requires d.A <= e.A && d.B <= e.B && d.C <= e.C
    ensures IsHighStress(d) ==> IsHighStress(e)
  {
  }

  /** Answering every B item 1 gives B = 116, which is always high stress. */
  lemma AllStressReactionsHigh(responses: Responses)
    requires forall q :: 18 <= q <= 46 ==> Answer(responses, q) == 1
    ensures IsHighStress(DomainScoresOf(responses))
  {
    ConstantSums(responses, 18, 47, 1);
  }

  /** Answering every item 4 gives A = 0, B = 0, C = 44, which is never high stress. */
  lemma AllFoursNormal(responses: Responses)
    requires forall q :: 1 <= q <= 57 ==> Answer(responses, q) == 4
    ensures !IsHighStress(DomainScoresOf(responses))
  {
    ConstantAnswers(responses, 4);
  }
}
