/**
 * Domain totals of one questionnaire: A sums items 1-17 and B items 18-46
 * with normal polarity (answer 1..4 scores 5 - answer), C sums items
 * 47-57 with inverse polarity (answer 1..4 scores the answer itself).
 * A missing answer, or one outside 1..4, scores 0.
 */
module DomainScoring {

  /** Answers keyed by item number; the source's string keys are the items' decimal names. */
  type Responses = map<int, int>

  datatype DomainScores = DomainScores(A: int, B: int, C: int)

  /** responses[q] ?? 0 */
  function Answer(responses: Responses, q: int): int {
    if q in responses then responses[q] else 0
  }

  predicate ValidAnswer(v: int) {
    1 <= v <= 4
  }

  /** Normal polarity: 1 -> 4, 2 -> 3, 3 -> 2, 4 -> 1, anything else 0. */
  function ScoreNormal(v: int): (r: int)
    ensures 0 <= r <= 4
    ensures r + ScoreInverse(v) == (if ValidAnswer(v) then 5 else 0)
    ensures r == 0 <==> !ValidAnswer(v)
  {
    if ValidAnswer(v) then 5 - v else 0
  }

  /** Inverse polarity: 1..4 score themselves, anything else 0. */
  function ScoreInverse(v: int): (r: int)
    ensures 0 <= r <= 4
    ensures r == 0 <==> !ValidAnswer(v)
  {
    if ValidAnswer(v) then v else 0
  }

  /** The normal-polarity scores of items lo .. hi-1. */
  function NormalSum(responses: Responses, lo: int, hi: int): int
    decreases hi - lo
  {
    if hi <= lo then 0 else NormalSum(responses, lo, hi - 1) + ScoreNormal(Answer(responses, hi - 1))
  }

  /** The inverse-polarity scores of items lo .. hi-1. */
  function InverseSum(responses: Responses, lo: int, hi: int): int
    decreases hi - lo
  {
    if hi <= lo then 0 else InverseSum(responses, lo, hi - 1) + ScoreInverse(Answer(responses, hi - 1))
  }

  /** What calculateScore computes. */
  function DomainScoresOf(responses: Responses): DomainScores {
    DomainScores(NormalSum(responses, 1, 18), NormalSum(responses, 18, 47), InverseSum(responses, 47, 58))
  }

  /** calculateScore: three accumulating loops over the item ranges. */
  method CalculateScore(responses: Responses) returns (scores: DomainScores)
    ensures scores == DomainScoresOf(responses)
  {
    var a, b, c := 0, 0, 0;
    for i := 1 to 18
      invariant a == NormalSum(responses, 1, i)
    {
      a := a + ScoreNormal(if i in responses then responses[i] else 0);
    }
    for i := 18 to 47
      invariant b == NormalSum(responses, 18, i)
    {
      b := b + ScoreNormal(if i in responses then responses[i] else 0);
    }
    for i := 47 to 58
      invariant c == InverseSum(responses, 47, i)
    {
      c := c + ScoreInverse(if i in responses then responses[i] else 0);
    }
    scores := DomainScores(a, b, c);
  }

  lemma {:induction false} SumBounds(responses: Responses, lo: int, hi: int)
    requires lo <= hi
    ensures 0 <= NormalSum(responses, lo, hi) <= 4 * (hi - lo)
    ensures 0 <= InverseSum(responses, lo, hi) <= 4 * (hi - lo)
    decreases hi - lo
  {
    if hi > lo {
      SumBounds(responses, lo, hi - 1);
    }
  }

  /** 0 <= A <= 68, 0 <= B <= 116, 0 <= C <= 44. */
  lemma DomainBounds(responses: Responses)
    ensures var d := DomainScoresOf(responses);
      0 <= d.A <= 68 && 0 <= d.B <= 116 && 0 <= d.C <= 44
  {
    SumBounds(responses, 1, 18);
    SumBounds(responses, 18, 47);
    SumBounds(responses, 47, 58);
  }

  /** Sums only depend on the item scores of their own range. */
  lemma {:induction false} SumsAgree(r1: Responses, r2: Responses, lo: int, hi: int)
    requires forall q :: lo <= q < hi ==> ScoreNormal(Answer(r1, q)) == ScoreNormal(Answer(r2, q))
    ensures NormalSum(r1, lo, hi) == NormalSum(r2, lo, hi)
    ensures InverseSum(r1, lo, hi) == InverseSum(r2, lo, hi)
    decreases hi - lo
  {
    if hi > lo {
      SumsAgree(r1, r2, lo, hi - 1);
      var v1, v2 := Answer(r1, hi - 1), Answer(r2, hi - 1);
      assert ScoreInverse(v1) == ScoreInverse(v2) by {
        assert ScoreNormal(v1) + ScoreInverse(v1) == (if ValidAnswer(v1) then 5 else 0);
        assert ScoreNormal(v2) + ScoreInverse(v2) == (if ValidAnswer(v2) then 5 else 0);
      }
    }
  }

  /**
   * Keys outside 1..57 never matter, and an answer outside 1..4 counts
   * exactly as a missing one: responses that agree on the valid answers
   * of items 1..57 have the same domain scores.
   */
  lemma OnlyValidAnswersMatter(r1: Responses, r2: Responses)
    requires forall q :: 1 <= q <= 57 ==>
      (ValidAnswer(Answer(r1, q)) || ValidAnswer(Answer(r2, q))) ==> Answer(r1, q) == Answer(r2, q)
    ensures DomainScoresOf(r1) == DomainScoresOf(r2)
  {
    forall q | 1 <= q < 58 ensures ScoreNormal(Answer(r1, q)) == ScoreNormal(Answer(r2, q)) {
      assert ValidAnswer(Answer(r1, q)) == ValidAnswer(Answer(r2, q)) || Answer(r1, q) == Answer(r2, q);
    }
    SumsAgree(r1, r2, 1, 18);
    SumsAgree(r1, r2, 18, 47);
    SumsAgree(r1, r2, 47, 58);
  }

  /** When every item of lo..hi-1 is answered v in 1..4, the sums are (hi - lo) * (5 - v) and (hi - lo) * v. */
  lemma {:induction false} ConstantSums(responses: Responses, lo: int, hi: int, v: int)
    requires lo <= hi && ValidAnswer(v)
    requires forall q :: lo <= q < hi ==> Answer(responses, q) == v
    ensures NormalSum(responses, lo, hi) == (hi - lo) * (5 - v)
    ensures InverseSum(responses, lo, hi) == (hi - lo) * v
    decreases hi - lo
  {
    if hi > lo {
      ConstantSums(responses, lo, hi - 1, v);
    }
  }

  /**
   * All items of a domain answered v gives A = 17 (5 - v), B = 29 (5 - v), C = 11 v:
   * all 1 gives A = 68, all 4 gives A = 0, C = 44 for all 4 and C = 11 for all 1.
   */
  lemma ConstantAnswers(responses: Responses, v: int)
    requires ValidAnswer(v)
    requires forall q :: 1 <= q <= 57 ==> Answer(responses, q) == v
    ensures DomainScoresOf(responses) == DomainScores(17 * (5 - v), 29 * (5 - v), 11 * v)
  {
    ConstantSums(responses, 1, 18, v);
    ConstantSums(responses, 18, 47, v);
    ConstantSums(responses, 47, 58, v);
  }
}
