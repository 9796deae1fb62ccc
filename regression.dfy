/**
 * The set-up around the least-squares fit of RegressionAnalysis.tsx: the
 * predictors are the ratings of the A and C subscales, the target is the
 * stress measure; the fitted vector is split into an intercept and one
 * coefficient per predictor, and the three coefficients of largest
 * magnitude are shown with their subscale labels.
 */
module Regression {
  import opened Wrappers
  import opened SubscaleMeta
  import opened EvaluationConversion
  import opened SubscaleScoring
  import opened Users
  import opened StressMeasure
  import opened StableSort

  /** SUBSCALES.filter(s => s.domain === "A" || s.domain === "C").map(s => s.id) */
  function PredictorsOf(scales: seq<SubScale>): seq<string> {
    if scales == [] then []
    else
      var last := scales[|scales| - 1];
      PredictorsOf(scales[..|scales| - 1]) + (if last.domain == A || last.domain == C then [last.id] else [])
  }

  const PREDICTOR_IDS: seq<string> := PredictorsOf(SUBSCALES)

  /** An id is kept exactly when some scale of the list carries it and is not of domain B. */
  lemma {:induction false} PredictorsMembers(scales: seq<SubScale>)
    ensures forall id :: id in PredictorsOf(scales) <==> exists i :: 0 <= i < |scales| && scales[i].id == id && scales[i].domain != B
  {
    if scales != [] {
      var init := scales[..|scales| - 1];
      PredictorsMembers(init);
      assert forall i :: 0 <= i < |init| ==> init[i] == scales[i];
    }
  }

  lemma {:induction false} PredictorsAppend(a: seq<SubScale>, b: seq<SubScale>)
    ensures PredictorsOf(a + b) == PredictorsOf(a) + PredictorsOf(b)
    decreases |b|
  {
    if b == [] {
      assert a + b == a;
    } else {
      var init := b[..|b| - 1];
      assert (a + b)[..|a + b| - 1] == a + init;
      assert (a + b)[|a + b| - 1] == b[|b| - 1];
      PredictorsAppend(a, init);
    }
  }

  /** A run of A or C scales keeps every id, in order. */
  lemma {:induction false} PredictorsKeepAll(a: seq<SubScale>)
    requires forall k :: 0 <= k < |a| ==> a[k].domain != B
    ensures |PredictorsOf(a)| == |a|
    ensures forall k :: 0 <= k < |a| ==> PredictorsOf(a)[k] == a[k].id
  {
    if a != [] {
      PredictorsKeepAll(a[..|a| - 1]);
    }
  }

  /** A run of B scales keeps nothing. */
  lemma {:induction false} PredictorsDropAll(a: seq<SubScale>)
    requires forall k :: 0 <= k < |a| ==> a[k].domain == B
    ensures PredictorsOf(a) == []
  {
    if a != [] {
      PredictorsDropAll(a[..|a| - 1]);
    }
  }

  /** The 13 predictors, in catalog order: A1-A9 (entries 0-8), then C1-C4 (entries 15-18). */
  lemma PredictorIds()
    ensures |PREDICTOR_IDS| == 13
    ensures forall k :: 0 <= k < 13 ==> PREDICTOR_IDS[k] == SUBSCALES[if k < 9 then k else k + 6].id
  {
    var s := SUBSCALES;
    var a, b, c := s[..9], s[9..15], s[15..];
    assert s == a + b + c;
    forall k | 0 <= k < |a| ensures a[k].domain != B {
      assert k == 0 || k == 1 || k == 2 || k == 3 || k == 4 || k == 5 || k == 6 || k == 7 || k == 8;
    }
    forall k | 0 <= k < |b| ensures b[k].domain == B {
      assert k == 0 || k == 1 || k == 2 || k == 3 || k == 4 || k == 5;
    }
    forall k | 0 <= k < |c| ensures c[k].domain != B {
      assert k == 0 || k == 1 || k == 2 || k == 3;
    }
    PredictorsKeepAll(a);
    PredictorsDropAll(b);
    PredictorsKeepAll(c);
    PredictorsAppend(a + b, c);
    PredictorsAppend(a, b);
  }

  /**
   * The tag test of the source: only the literal "女性" selects the female
   * table, while the records carry "male" or "female".
   */
  function RegressionGenderAsWritten(tag: string): Gender {
    if tag == "女性" then Female else Male
  }

  lemma FemaleTagReadAsMale()
    ensures RegressionGenderAsWritten("female") == Male
  {
  }

  /** The evidently intended test: "female" selects the female table, anything else the male one. */
  function RegressionGender(tag: string): (g: Gender)
    ensures g == Female <==> tag == "female"
    ensures GenderOf(tag).Some? ==> g == GenderOf(tag).value
  {
    if tag == "female" then Female else Male
  }

  lemma {:induction false} ScoresOverBothTables(responses: Responses, scales: seq<SubScale>)
    ensures ScoresOver(responses, Male, scales) == ScoresOver(responses, Female, scales)
  {
    if scales != [] {
      ScoresOverBothTables(responses, scales[..|scales| - 1]);
    }
  }

  /** While the female table is the male one, the tag test changes nothing. */
  lemma GenderTestHasNoEffect(responses: Responses, tag: string)
    ensures SubscaleScoresOf(responses, RegressionGenderAsWritten(tag)) == SubscaleScoresOf(responses, RegressionGender(tag))
  {
    ScoresOverBothTables(responses, SUBSCALES);
  }

  /** The ratings of ids, in order. */
  function Ratings(sub: map<string, SubScore>, ids: seq<string>): (r: seq<int>)
    ensures |r| == |ids|
  {
    if ids == [] then [] else Ratings(sub, ids[..|ids| - 1]) + [EvalOr0(sub, ids[|ids| - 1])]
  }

  lemma {:induction false} RatingsAt(sub: map<string, SubScore>, ids: seq<string>, k: nat)
    requires k < |ids|
    ensures Ratings(sub, ids)[k] == EvalOr0(sub, ids[k])
  {
    if k < |ids| - 1 {
      RatingsAt(sub, ids[..|ids| - 1], k);
    }
  }

  /** One row of X: the constant 1, then the user's rating of each predictor. */
  function DesignRow(u: User): seq<int> {
    [1] + Ratings(SubscaleScoresOf(u.responses, RegressionGender(u.gender)), PREDICTOR_IDS)
  }

  /** The row is also the one the source builds with its own '女性' tag test. */
  lemma DesignRowAsWritten(u: User)
    ensures DesignRow(u) == [1] + Ratings(SubscaleScoresOf(u.responses, RegressionGenderAsWritten(u.gender)), PREDICTOR_IDS)
  {
    GenderTestHasNoEffect(u.responses, u.gender);
  }

  /** Every predictor is a key of the subscale scores, with a rating in 1..5. */
  lemma PredictorsRated(responses: Responses, g: Gender)
    ensures forall k :: 0 <= k < |PREDICTOR_IDS| ==>
      PREDICTOR_IDS[k] in SubscaleScoresOf(responses, g) && 1 <= SubscaleScoresOf(responses, g)[PREDICTOR_IDS[k]].eval <= 5
  {
    PredictorIds();
    SubscaleScoresSpec(responses, g);
    forall k | 0 <= k < |PREDICTOR_IDS|
      ensures PREDICTOR_IDS[k] in SubscaleScoresOf(responses, g) && 1 <= SubscaleScoresOf(responses, g)[PREDICTOR_IDS[k]].eval <= 5
    {
      var i := if k < 9 then k else k + 6;
      assert PREDICTOR_IDS[k] == SUBSCALES[i].id;
    }
  }

  /** With every id a key, the ratings are the keys' evals, position by position. */
  lemma RatingsOfKeys(sub: map<string, SubScore>, ids: seq<string>)
    requires forall k :: 0 <= k < |ids| ==> ids[k] in sub
    ensures forall k :: 0 <= k < |ids| ==> Ratings(sub, ids)[k] == sub[ids[k]].eval
  {
    forall k | 0 <= k < |ids| ensures Ratings(sub, ids)[k] == sub[ids[k]].eval {
      RatingsAt(sub, ids, k);
    }
  }

  /**
   * A row has 14 entries: 1, then the 13 predictor ratings, each the
   * subscale's computed rating and so in 1..5; the fallback 0 is never used.
   */
  lemma DesignRowSpec(u: User)
    ensures |DesignRow(u)| == 14 && DesignRow(u)[0] == 1
    ensures forall k :: 0 <= k < 13 ==>
      PREDICTOR_IDS[k] in SubscaleScoresOf(u.responses, RegressionGender(u.gender))
      && DesignRow(u)[k + 1] == SubscaleScoresOf(u.responses, RegressionGender(u.gender))[PREDICTOR_IDS[k]].eval
      && 1 <= DesignRow(u)[k + 1] <= 5
  {
    var sub := SubscaleScoresOf(u.responses, RegressionGender(u.gender));
    PredictorIds();
    PredictorsRated(u.responses, RegressionGender(u.gender));
    RatingsOfKeys(sub, PREDICTOR_IDS);
    assert forall k :: 0 <= k < 13 ==> DesignRow(u)[k + 1] == Ratings(sub, PREDICTOR_IDS)[k];
  }

  /** The row loop: the constant 1, then one push per predictor. */
  method BuildRow(sub: map<string, SubScore>, ids: seq<string>) returns (row: seq<int>)
    ensures row == [1] + Ratings(sub, ids)
  {
    row := [1];
    for k := 0 to |ids|
      invariant row == [1] + Ratings(sub, ids[..k])
    {
      var e := if ids[k] in sub then sub[ids[k]].eval else 0;
      assert ids[..k + 1][..k] == ids[..k];
      row := row + [e];
    }
    assert ids[..|ids|] == ids;
  }

  /** The users loop of runRegression: one X row and one Y value per user. */
  method BuildDesign(users: seq<User>) returns (X: seq<seq<int>>, Y: seq<int>)
    ensures |X| == |users| && |Y| == |users|
    ensures forall i :: 0 <= i < |users| ==> X[i] == DesignRow(users[i]) && Y[i] == StressOf(users[i].responses)
  {
    X, Y := [], [];
    for i := 0 to |users|
      invariant |X| == i && |Y| == i
      invariant forall j :: 0 <= j < i ==> X[j] == DesignRow(users[j]) && Y[j] == StressOf(users[j].responses)
    {
      var u := users[i];
      var g := if u.gender == "female" then Female else Male;
      var sub := CalculateSubscaleScores(u.responses, g);
      var row := BuildRow(sub, PREDICTOR_IDS);
      var stress := CalcStress(u.responses);
      X, Y := X + [row], Y + [stress];
    }
  }

  datatype Coefficient = Coefficient(id: string, beta: real)

  datatype RegressionResult = RegressionResult(intercept: real, coefficients: seq<Coefficient>)

  /** The fitted vector read as intercept (entry 0) and one coefficient per predictor (entry idx + 1). */
  function ResultOf(betaVec: seq<real>): RegressionResult
    requires |betaVec| == 1 + |PREDICTOR_IDS|
  {
    RegressionResult(betaVec[0],
      seq(|PREDICTOR_IDS|, (idx: int) requires 0 <= idx < |PREDICTOR_IDS| => Coefficient(PREDICTOR_IDS[idx], betaVec[idx + 1])))
  }

  /** The fitted vector again: the intercept, then the coefficients' betas. */
  function BetaVecOf(r: RegressionResult): seq<real> {
    [r.intercept] + seq(|r.coefficients|, (k: int) requires 0 <= k < |r.coefficients| => r.coefficients[k].beta)
  }

  /** Splitting loses nothing, and the coefficients follow the predictor order. */
  lemma ResultRoundTrip(betaVec: seq<real>)
    requires |betaVec| == 1 + |PREDICTOR_IDS|
    ensures BetaVecOf(ResultOf(betaVec)) == betaVec
    ensures |ResultOf(betaVec).coefficients| == |PREDICTOR_IDS|
    ensures forall k :: 0 <= k < |PREDICTOR_IDS| ==> ResultOf(betaVec).coefficients[k].id == PREDICTOR_IDS[k]
  {
    var b := BetaVecOf(ResultOf(betaVec));
    assert |b| == |betaVec|;
    forall k | 0 <= k < |b| ensures b[k] == betaVec[k] {
      if k > 0 {
        assert b[k] == ResultOf(betaVec).coefficients[k - 1].beta;
      }
    }
  }

  /** |beta|, descending. */
  function Magnitude(c: Coefficient): Key {
    Key(if c.beta < 0.0 then -c.beta else c.beta, 0.0)
  }

  /** coefficients.slice().sort(by |beta| descending).slice(0, 3) */
  function TopFactors(coefficients: seq<Coefficient>): seq<Coefficient> {
    Take(Sort(Magnitude, coefficients), 3)
  }

  /**
   * At most three coefficients, by |beta| descending, each one of the
   * inputs; no coefficient left out has a larger |beta|, and ties keep the
   * predictor order.
   */
  lemma TopFactorsSpec(coefficients: seq<Coefficient>)
    ensures |TopFactors(coefficients)| == if |coefficients| < 3 then |coefficients| else 3
    ensures SortedDesc(Magnitude, TopFactors(coefficients))
    ensures forall c :: c in TopFactors(coefficients) ==> c in coefficients
    ensures forall i, j :: 0 <= i < |TopFactors(coefficients)| <= j < |Sort(Magnitude, coefficients)| ==>
      AtLeast(Magnitude(TopFactors(coefficients)[i]), Magnitude(Sort(Magnitude, coefficients)[j]))
    ensures forall k :: KeyClass(Magnitude, Sort(Magnitude, coefficients), k) == KeyClass(Magnitude, coefficients, k)
  {
    SortSpec(Magnitude, coefficients);
    var sorted := Sort(Magnitude, coefficients);
    forall c | c in TopFactors(coefficients) ensures c in coefficients {
      assert c in sorted;
      assert c in multiset(sorted);
    }
  }

  /** SUBSCALES.find(s => s.id === id) as an index: the scan from position k onwards. */
  function FindScale(scales: seq<SubScale>, id: string, k: nat): (r: Option<nat>)
    requires k <= |scales|
    ensures r.Some? ==> k <= r.value < |scales| && scales[r.value].id == id
    ensures r.Some? ==> forall j :: k <= j < r.value ==> scales[j].id != id
    ensures r.None? ==> forall j :: k <= j < |scales| ==> scales[j].id != id
    decreases |scales| - k
  {
    if k == |scales| then None
    else if scales[k].id == id then Some(k)
    else FindScale(scales, id, k + 1)
  }

  /** ?.label ?? id */
  function LabelOf(id: string): string {
    match FindScale(SUBSCALES, id, 0)
    case Some(i) => SUBSCALES[i].caption
    case None => id
  }

  /** A catalog id shows its subscale's label; any other id shows itself. */
  lemma LabelOfSpec(id: string)
    ensures forall i :: 0 <= i < |SUBSCALES| && SUBSCALES[i].id == id ==> LabelOf(id) == SUBSCALES[i].caption
    ensures !IsCatalogId(id) ==> LabelOf(id) == id
  {
    CatalogIdsDistinct();
  }
}
