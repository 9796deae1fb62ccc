/**
 * Per-subscale raw scores and 1-5 ratings. Here the polarity helpers are
 * named the other way round from the domain scoring: the "normal" score of
 * an answer v in 1..4 is v itself and the "inverse" score is 5 - v.
 */
module SubscaleScoring {
  import opened SubscaleMeta
  import opened EvaluationConversion
  import DomainScoring

  type Responses = DomainScoring.Responses

  datatype SubScore = SubScore(raw: int, eval: int)

  function ScoreNormal(v: int): (r: int)
    ensures 0 <= r <= 4
    ensures r == 0 <==> !DomainScoring.ValidAnswer(v)
  {
    if DomainScoring.ValidAnswer(v) then v else 0
  }

  function ScoreInverse(v: int): (r: int)
    ensures 0 <= r <= 4
    ensures r + ScoreNormal(v) == (if DomainScoring.ValidAnswer(v) then 5 else 0)
  {
    if DomainScoring.ValidAnswer(v) then 5 - v else 0
  }

  /** The two files' helpers agree up to their names, which are swapped. */
  lemma OppositeNaming(v: int)
    ensures ScoreNormal(v) == DomainScoring.ScoreInverse(v)
    ensures ScoreInverse(v) == DomainScoring.ScoreNormal(v)
  {
  }

  /** The points one answer earns in a scale of the given polarity. */
  function Points(reverse: bool, v: int): int {
    if reverse then ScoreInverse(v) else ScoreNormal(v)
  }

  /** The raw score of a scale: its items' points added up. */
  function RawScore(responses: Responses, items: seq<int>, reverse: bool): int {
    if items == [] then 0
    else RawScore(responses, items[..|items| - 1], reverse) + Points(reverse, DomainScoring.Answer(responses, items[|items| - 1]))
  }

  lemma {:induction false} RawScoreBounds(responses: Responses, items: seq<int>, reverse: bool)
    ensures 0 <= RawScore(responses, items, reverse) <= 4 * |items|
  {
    if items != [] {
      RawScoreBounds(responses, items[..|items| - 1], reverse);
    }
  }

  /**
   * getEvaluationScore: a threshold list that is not a 4-tuple gives 3. With
   * t1 > t4 the rating is the first i with raw >= t_i, otherwise the first i
   * with raw <= t_i; 5 when there is none.
   */
  function GetEvaluationScore(raw: int, t: seq<int>): (r: int)
    ensures 1 <= r <= 5
    ensures |t| != 4 ==> r == 3
  {
    if |t| != 4 then 3
    else if t[0] > t[3] then
      if raw >= t[0] then 1 else if raw >= t[1] then 2 else if raw >= t[2] then 3 else if raw >= t[3] then 4 else 5
    else
      if raw <= t[0] then 1 else if raw <= t[1] then 2 else if raw <= t[2] then 3 else if raw <= t[3] then 4 else 5
  }

  /** How many thresholds lie strictly below x. */
  function CountBelow(t: seq<int>, x: int): nat {
    if t == [] then 0 else (if t[0] < x then 1 else 0) + CountBelow(t[1..], x)
  }

  /** How many thresholds lie strictly above x. */
  function CountAbove(t: seq<int>, x: int): nat {
    if t == [] then 0 else (if t[0] > x then 1 else 0) + CountAbove(t[1..], x)
  }

  lemma Count4(t: seq<int>, x: int)
    requires |t| == 4
    ensures CountBelow(t, x) == (if t[0] < x then 1 else 0) + (if t[1] < x then 1 else 0) + (if t[2] < x then 1 else 0) + (if t[3] < x then 1 else 0)
    ensures CountAbove(t, x) == (if t[0] > x then 1 else 0) + (if t[1] > x then 1 else 0) + (if t[2] > x then 1 else 0) + (if t[3] > x then 1 else 0)
  {
    var t1 := t[1..];
    var t2 := t1[1..];
    var t3 := t2[1..];
    assert t1[0] == t[1] && t2[0] == t[2] && t3[0] == t[3] && t3[1..] == [];
    assert CountBelow(t3, x) == (if t[3] < x then 1 else 0);
    assert CountBelow(t2, x) == (if t[2] < x then 1 else 0) + CountBelow(t3, x);
    assert CountBelow(t1, x) == (if t[1] < x then 1 else 0) + CountBelow(t2, x);
    assert CountAbove(t3, x) == (if t[3] > x then 1 else 0);
    assert CountAbove(t2, x) == (if t[2] > x then 1 else 0) + CountAbove(t3, x);
    assert CountAbove(t1, x) == (if t[1] > x then 1 else 0) + CountAbove(t2, x);
  }

  /** For a non-decreasing tuple the rating is one more than the number of thresholds raw exceeds. */
  lemma AscendingRatingCounts(raw: int, t: seq<int>)
    requires |t| == 4 && t[0] <= t[1] <= t[2] <= t[3]
    ensures GetEvaluationScore(raw, t) == 1 + CountBelow(t, raw)
  {
    Count4(t, raw);
  }

  /** For a descending tuple the rating is one more than the number of thresholds raw falls short of. */
  lemma DescendingRatingCounts(raw: int, t: seq<int>)
    requires |t| == 4 && t[0] >= t[1] >= t[2] >= t[3] && t[0] > t[3]
    ensures GetEvaluationScore(raw, t) == 1 + CountAbove(t, raw)
  {
    Count4(t, raw);
  }

  /** For any 4-tuple the rating never decreases with raw when t1 <= t4, and never increases when t1 > t4. */
  lemma RatingMonotone(raw1: int, raw2: int, t: seq<int>)
    requires raw1 <= raw2 && |t| == 4
    ensures !Descending(t) ==> GetEvaluationScore(raw1, t) <= GetEvaluationScore(raw2, t)
    ensures Descending(t) ==> GetEvaluationScore(raw2, t) <= GetEvaluationScore(raw1, t)
  {
  }

  /** With the A3/A5 tuple [1,2,3,3] no raw score is rated 4; raw 4 is rated 5. */
  lemma ThreeThreeSkipsFour(raw: int)
    ensures GetEvaluationScore(raw, [1, 2, 3, 3]) != 4
    ensures GetEvaluationScore(4, [1, 2, 3, 3]) == 5
  {
  }

  /** The fallback tuple [0,0,0,0] has length 4, so it rates 1 or 5, never 3. */
  lemma MissingTupleRating(raw: int)
    ensures GetEvaluationScore(raw, [0, 0, 0, 0]) == (if raw <= 0 then 1 else 5)
  {
  }

  /** evalTable[id] ?? [0, 0, 0, 0] */
  function TupleFor(table: EvaluationTable, id: string): seq<int> {
    if id in table then table[id] else [0, 0, 0, 0]
  }

  /** What one forEach step stores for a scale. */
  function ScaleScoreOf(responses: Responses, g: Gender, s: SubScale): SubScore {
    var raw := RawScore(responses, s.items, s.reverse);
    SubScore(raw, GetEvaluationScore(raw, TupleFor(EvalTable(g), s.id)))
  }

  /** The record the forEach builds over a list of scales: one entry per scale, later entries winning. */
  function ScoresOver(responses: Responses, g: Gender, scales: seq<SubScale>): map<string, SubScore> {
    if scales == [] then map[]
    else
      var last := scales[|scales| - 1];
      ScoresOver(responses, g, scales[..|scales| - 1])[last.id := ScaleScoreOf(responses, g, last)]
  }

  /** What calculateSubscaleScores returns. */
  function SubscaleScoresOf(responses: Responses, g: Gender): map<string, SubScore> {
    ScoresOver(responses, g, SUBSCALES)
  }

  /** The inner loop of calculateSubscaleScores: the sum of one scale's item points. */
  method ScaleSum(responses: Responses, items: seq<int>, reverse: bool) returns (sum: int)
    ensures sum == RawScore(responses, items, reverse)
  {
    sum := 0;
    for k := 0 to |items|
      invariant sum == RawScore(responses, items[..k], reverse)
    {
      var ans := if items[k] in responses then responses[items[k]] else 0;
      assert items[..k + 1][..k] == items[..k];
      sum := sum + (if reverse then ScoreInverse(ans) else ScoreNormal(ans));
    }
    assert items[..|items|] == items;
  }

  /** The forEach over a list of scales, storing each scale's raw score and rating. */
  method ScoreScales(responses: Responses, g: Gender, scales: seq<SubScale>) returns (scores: map<string, SubScore>)
    ensures scores == ScoresOver(responses, g, scales)
  {
    scores := map[];
    var table := EvalTable(g);
    for n := 0 to |scales|
      invariant scores == ScoresOver(responses, g, scales[..n])
    {
      var scale := scales[n];
      var sum := ScaleSum(responses, scale.items, scale.reverse);
      var t := if scale.id in table then table[scale.id] else [0, 0, 0, 0];
      assert scales[..n + 1][..n] == scales[..n];
      scores := scores[scale.id := SubScore(sum, GetEvaluationScore(sum, t))];
    }
    assert scales[..|scales|] == scales;
  }

  /** calculateSubscaleScores: the forEach over the catalog. */
  method CalculateSubscaleScores(responses: Responses, g: Gender) returns (scores: map<string, SubScore>)
    ensures scores == SubscaleScoresOf(responses, g)
  {
    scores := ScoreScales(responses, g, SUBSCALES);
  }

  predicate DistinctIds(scales: seq<SubScale>) {
    forall i, j :: 0 <= i < j < |scales| ==> scales[i].id != scales[j].id
  }

  lemma {:induction false} ScoresOverKeys(responses: Responses, g: Gender, scales: seq<SubScale>)
    ensures forall id :: id in ScoresOver(responses, g, scales) <==> exists i :: 0 <= i < |scales| && scales[i].id == id
  {
    if scales != [] {
      var init := scales[..|scales| - 1];
      ScoresOverKeys(responses, g, init);
      assert forall i :: 0 <= i < |init| ==> init[i] == scales[i];
    }
  }

  /** With distinct ids no entry is overwritten: each scale's id holds that scale's score. */
  lemma {:induction false} ScoresOverValues(responses: Responses, g: Gender, scales: seq<SubScale>)
    requires DistinctIds(scales)
    ensures forall i :: 0 <= i < |scales| ==>
      scales[i].id in ScoresOver(responses, g, scales)
      && ScoresOver(responses, g, scales)[scales[i].id] == ScaleScoreOf(responses, g, scales[i])
  {
    if scales != [] {
      var init := scales[..|scales| - 1];
      assert forall i :: 0 <= i < |init| ==> init[i] == scales[i];
      ScoresOverValues(responses, g, init);
    }
  }

  /**
   * The result has exactly one entry per catalog id, holding that scale's raw
   * score and rating; the rating is in 1..5 and the raw score in 0..4|items|;
   * the [0,0,0,0] fallback is never reached, and the rating is one more than
   * the number of the scale's thresholds the raw score passes on the way to
   * higher stress.
   */
  lemma SubscaleScoresSpec(responses: Responses, g: Gender)
    ensures SubscaleScoresOf(responses, g).Keys == IdSet()
    ensures forall i :: 0 <= i < |SUBSCALES| ==>
      var s := SUBSCALES[i];
      var score := SubscaleScoresOf(responses, g)[s.id];
      var t := EvalTable(g)[s.id];
      score == ScaleScoreOf(responses, g, s)
      && 0 <= score.raw <= 4 * |s.items| && 1 <= score.eval <= 5
      && s.id in EvalTable(g) && |t| == 4
      && score.eval == 1 + (if s.reverse then CountAbove(t, score.raw) else CountBelow(t, score.raw))
  {
    ScoresOverKeys(responses, g, SUBSCALES);
    CatalogIdsDistinct();
    ScoresOverValues(responses, g, SUBSCALES);
    TablesMatchCatalog(g);
    forall i | 0 <= i < |SUBSCALES|
      ensures var s := SUBSCALES[i];
        var raw := RawScore(responses, s.items, s.reverse);
        var t := EvalTable(g)[s.id];
        0 <= raw <= 4 * |s.items|
        && GetEvaluationScore(raw, TupleFor(EvalTable(g), s.id)) == 1 + (if s.reverse then CountAbove(t, raw) else CountBelow(t, raw))
    {
      var s := SUBSCALES[i];
      var raw := RawScore(responses, s.items, s.reverse);
      RawScoreBounds(responses, s.items, s.reverse);
      EntryOf(i);
      if s.reverse {
        DescendingRatingCounts(raw, EvalTable(g)[s.id]);
      } else {
        AscendingRatingCounts(raw, EvalTable(g)[s.id]);
      }
    }
  }

  /** sub[id]?.raw ?? 0, as the components read a score record. */
  function RawOr0(sub: map<string, SubScore>, id: string): int {
    if id in sub then sub[id].raw else 0
  }

  /** sub[id]?.eval ?? 0 */
  function EvalOr0(sub: map<string, SubScore>, id: string): int {
    if id in sub then sub[id].eval else 0
  }
}
