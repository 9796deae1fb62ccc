# Stress-Check scoring core in Dafny

A model of the scoring and aggregation core of Stress-Check, a dashboard for
the 57-item Brief Job Stress Questionnaire (職業性ストレス簡易調査票). Each
respondent answers 57 items on a 1..4 scale; the items fall into domain A
(job stressors, items 1-17), domain B (stress reactions, items 18-46) and
domain C (support and satisfaction, items 47-57). The model covers:

- **SubscaleMeta, EvaluationConversion** (`lib/utils/subscaleMeta.ts`,
  `lib/data/evaluationConversion.ts`): the 19-subscale catalog and the
  five-level conversion tables, whose female table is the male one.
- **DomainScoring** (`lib/utils/calculateScore.ts`): the three domain sums,
  with domain C scored unreversed and answers outside 1..4 scoring 0, as a method with `for` loops
  proved against a function of the answers.
- **SubscaleScoring, HighStress** (`lib/utils/calculateSubscaleScores.ts`,
  `lib/utils/evaluateHighStress.ts`): raw subscale sums, the 1..5 rating
  lookup, and the high-stress rule on the domain totals.
- **Users, Grouping** (`lib/data/users.ts`, `lib/utils/grouping.ts`): the
  respondent record and the group definitions for the keys department,
  location, gender, none (everyone) and years of service.
- **StressMeasure, Rounding, StableSort** (shared helpers): the B-item
  stress measure that three components copy, JavaScript's `Math.round` on
  the integer ratios the components round, and the stable sort behind
  `Array.prototype.sort`.
- **CrossMatrix, ClusterRanking, DeptYears** (`app/components/CrossStressTable.tsx`,
  `app/components/StressDeptYearsTable.tsx`): the cross tabulation of two
  groupings, the ranking of the riskiest clusters, and the department by
  years-of-service table.
- **Regression** (`app/components/RegressionAnalysis.tsx`): the design
  matrix of 13 predictors, the coefficient mapping and the top-factor
  ranking around the least-squares solve.
- **SubscaleAggregate, Dashboard, ClusterComment, SubscaleRadar**
  (`app/components/ClusterDetail.tsx`, `app/components/ScoreDashboard.tsx`,
  `app/components/ClusterAICommentGenerator.tsx`, `app/components/SubscaleRadar.tsx`):
  the per-cluster means, the dashboard's baseline and details, the cluster
  summary sent for a comment, and the radar chart's label wrapping.
- **StressAiHandler** (`amplify/functions/stress-ai-comment/handler.ts`):
  the stress level analysis, the priority areas and scales, the retrieve
  query, truncation, language and gender selection and the final prompt.
- **KbUpload, KbList** (`amplify/functions/kb-upload/uploader.ts`,
  `amplify/functions/kb-upload/list.ts`): argument checks, bucket, key and
  region choice, and the PDF listing, with the S3 replies as parameters.
- **Estimate** (`scripts/generateEstimate.js`): the template headers and
  the estimate rows with their subtotal, tax and total.
- **JsString, Wrappers**: the JavaScript string builtins the core uses
  (`trim`, `toLowerCase`, `split`, `slice`, `includes`, number to text) and
  the Option and Result types.

Answers, counts and sums are unbounded integers, as JavaScript numbers are
exact on every such value the core produces; the scores the comment handler
receives as JSON are reals. Where the source rounds a quotient of integers, the model
rounds the exact quotient half up (`Math.round(x * 10) / 10` is kept as
a whole number of tenths). For the whole-percent shares this can differ from
the source's floating-point product on an exact half-percent tie; see
"Left out".

## Model

| member | source | states |
|---|---|---|
| SubscaleMeta.CatalogIdsDistinct | lib/utils/subscaleMeta.ts:9-34 | the catalog has exactly 19 subscales and their ids are pairwise distinct |
| SubscaleMeta.IdSetIsCatalog | lib/utils/subscaleMeta.ts:9-34 | an id is in the catalog's id set exactly when some subscale carries it |
| SubscaleMeta.CatalogIdsSpec | lib/utils/subscaleMeta.ts:9-34 | the id list has 19 distinct entries in catalog order, and its set is the catalog's id set |
| SubscaleMeta.DomainItemRanges | lib/utils/subscaleMeta.ts:11-33 | domain A subscales use only items 1-17, B only 18-46, C only 47-57 |
| SubscaleMeta.OwnerOf | lib/utils/subscaleMeta.ts:11-33 | an independent item-to-subscale table; every item 1..57 gets a catalog index |
| SubscaleMeta.ItemLayout | lib/utils/subscaleMeta.ts:11-33 | every item a subscale lists is owned by that subscale in the independent table |
| SubscaleMeta.OwnerHoldsItem | lib/utils/subscaleMeta.ts:11-33 | every item 1..57 occurs in the subscale that owns it |
| SubscaleMeta.ItemsPartition | lib/utils/subscaleMeta.ts:11-33 | the item lists partition 1..57: every listed item lies in 1..57, every item occurs somewhere, and no item occurs twice |
| SubscaleMeta.ReverseScales | lib/utils/subscaleMeta.ts:16-33 | reverse scoring holds exactly for A6-A9, B1 and C1-C4, and exactly those labels end in ★ |
| EvaluationConversion.EntryOf | lib/data/evaluationConversion.ts:6-29 | every catalog id has a 4-tuple entry; it is descending exactly for the reverse subscales |
| EvaluationConversion.KeysAreCatalogIds | lib/data/evaluationConversion.ts:6-29 | every key of the table is a catalog id |
| EvaluationConversion.TablesMatchCatalog | lib/data/evaluationConversion.ts:6-37 | both tables are the male table; its keys are the catalog's ids, each with a 4-tuple; a tuple is descending exactly for the reverse subscales; ascending tuples never decrease and descending ones never increase |
| DomainScoring.ScoreNormal | lib/utils/calculateScore.ts:21 | the normal score lies in 0..4, adds up to 5 with the inverse score for an answer in 1..4, and is 0 exactly for answers outside 1..4 |
| DomainScoring.ScoreInverse | lib/utils/calculateScore.ts:22 | the inverse score lies in 0..4 and is 0 exactly for answers outside 1..4 |
| DomainScoring.CalculateScore | lib/utils/calculateScore.ts:27-48 | the three loops yield the normal sums of items 1-17 and 18-46 and the inverse sum of items 47-57 |
| DomainScoring.SumBounds | lib/utils/calculateScore.ts:33-45 | a sum over n items lies in 0..4n |
| DomainScoring.DomainBounds | lib/utils/calculateScore.ts:27-48 | A lies in 0..68, B in 0..116, C in 0..44 |
| DomainScoring.SumsAgree | lib/utils/calculateScore.ts:33-45 | a sum depends only on the item scores in its own range |
| DomainScoring.OnlyValidAnswersMatter | lib/utils/calculateScore.ts:21-44 | keys outside 1..57 never matter, and an answer outside 1..4 counts exactly as a missing one |
| DomainScoring.ConstantSums | lib/utils/calculateScore.ts:33-45 | n items all answered v in 1..4 sum to n(5-v) with normal polarity and to nv with inverse polarity |
| DomainScoring.ConstantAnswers | lib/utils/calculateScore.ts:27-48 | all 57 items answered v give A = 17(5-v), B = 29(5-v), C = 11v |
| SubscaleScoring.ScoreNormal | lib/utils/calculateSubscaleScores.ts:6 | the score lies in 0..4 and is 0 exactly for answers outside 1..4 |
| SubscaleScoring.ScoreInverse | lib/utils/calculateSubscaleScores.ts:7 | the score lies in 0..4 and adds up to 5 with the other polarity for an answer in 1..4 |
| SubscaleScoring.OppositeNaming | lib/utils/calculateSubscaleScores.ts:6-7 | this file's normal and inverse helpers are the domain scoring's inverse and normal helpers |
| SubscaleScoring.RawScoreBounds | lib/utils/calculateSubscaleScores.ts:38-42 | a raw score over n items lies in 0..4n |
| SubscaleScoring.GetEvaluationScore | lib/utils/calculateSubscaleScores.ts:9-28 | the rating lies in 1..5, and is 3 when the threshold list is not a 4-tuple |
| SubscaleScoring.AscendingRatingCounts | lib/utils/calculateSubscaleScores.ts:22-27 | for a non-decreasing tuple the rating is one more than the number of thresholds below raw |
| SubscaleScoring.DescendingRatingCounts | lib/utils/calculateSubscaleScores.ts:13-20 | for a descending tuple the rating is one more than the number of thresholds above raw |
| SubscaleScoring.RatingMonotone | lib/utils/calculateSubscaleScores.ts:9-28 | for a 4-tuple the rating never decreases with raw when t1 <= t4, and never increases when t1 > t4 |
| SubscaleScoring.ThreeThreeSkipsFour | lib/utils/calculateSubscaleScores.ts:22-27 | with the A3/A5 tuple [1,2,3,3] no raw score is rated 4, and raw 4 is rated 5 |
| SubscaleScoring.MissingTupleRating | lib/utils/calculateSubscaleScores.ts:45 | the fallback [0,0,0,0] rates raw <= 0 as 1 and anything else as 5 |
| SubscaleScoring.ScaleSum | lib/utils/calculateSubscaleScores.ts:38-42 | the inner loop adds up the scale's item points with the scale's polarity |
| SubscaleScoring.ScoreScales | lib/utils/calculateSubscaleScores.ts:37-47 | the forEach stores each scale's raw score and rating under its id, later entries winning |
| SubscaleScoring.CalculateSubscaleScores | lib/utils/calculateSubscaleScores.ts:30-49 | the record is the forEach over the whole catalog |
| SubscaleScoring.ScoresOverKeys | lib/utils/calculateSubscaleScores.ts:37-47 | the record has an entry for exactly the ids of the scales scored |
| SubscaleScoring.ScoresOverValues | lib/utils/calculateSubscaleScores.ts:37-47 | with distinct ids each scale's entry holds that scale's own raw score and rating |
| SubscaleScoring.SubscaleScoresSpec | lib/utils/calculateSubscaleScores.ts:30-49 | one entry per catalog id; raw in 0..4 times the item count, rating in 1..5; the table always has the scale's tuple, and the rating counts the thresholds passed towards higher stress |
| HighStress.HighStressBands | lib/utils/evaluateHighStress.ts:8-10 | B >= 77 is always high stress, B < 63 never, and in between exactly when A + C >= 76 |
| HighStress.HighStressMonotone | lib/utils/evaluateHighStress.ts:8-10 | raising A, B or C never turns a high-stress result into a normal one |
| HighStress.AllStressReactionsHigh | lib/utils/evaluateHighStress.ts:8-10 | every B item answered 1 gives B = 116, always high stress |
| HighStress.AllFoursNormal | lib/utils/evaluateHighStress.ts:8-10 | every item answered 4 gives A = 0, B = 0, C = 44, never high stress |
| Grouping.GetCategories | lib/utils/grouping.ts:9-39 | every key gives at least one category, with pairwise distinct category keys |
| Grouping.FindCategory | lib/utils/grouping.ts:6 | the first category the user matches, or none when no category matches |
| Grouping.FindUnique | lib/utils/grouping.ts:6 | a user matching exactly one category is found at that category |
| Grouping.MatchCountPositive | lib/utils/grouping.ts:6 | a user matching some category matches at least one |
| Grouping.NoneMatchesEveryone | lib/utils/grouping.ts:27-30 | 'none' gives exactly one category, which every user matches |
| Grouping.YearsBuckets | lib/utils/grouping.ts:32-37 | a user with at least one year of service matches exactly one year bucket; anyone else matches none |
| Grouping.EqualityCategories | lib/utils/grouping.ts:12-26 | department, location and gender give two categories each, and each matches exactly the users whose field equals its value |
| Users.GenderOf | lib/data/evaluationConversion.ts:34-37 | a gender tag names a table exactly when it is 'male' or 'female' |
| StressMeasure.CalcStress | app/components/CrossStressTable.tsx:6-17 | the loop adds the values of items 18-46, with item 27 reversed when its answer is in 1..4 |
| StressMeasure.StressSumBounds | app/components/CrossStressTable.tsx:8-15 | n items answered within 1..4 add up to a value in n..4n |
| StressMeasure.StressBounds | app/components/CrossStressTable.tsx:6-17 | with every answer of items 18-46 in 1..4 the measure lies in 29..116 |
| StressMeasure.StressSumUpdate | app/components/CrossStressTable.tsx:8-15 | changing one answer in the range changes the sum by the difference of that item's values |
| StressMeasure.StressSumUnchanged | app/components/CrossStressTable.tsx:8-15 | an answer past the range leaves the sum unchanged |
| StressMeasure.AnswerAddsAsIs | app/components/CrossStressTable.tsx:9-14 | an out-of-range answer is not zeroed: setting a missing item other than 27 to v adds exactly v |
| StressMeasure.StressAgainstNormal | app/components/CrossStressTable.tsx:8-15 | with valid answers, the measure plus the normal-polarity domain sum is 5 per item, except that item 27 counts twice its own answer |
| StressMeasure.StressVersusDomainB | app/components/CrossStressTable.tsx:6-17 | with valid answers, measure + B = 150 - 2 times the answer to item 27 |
| StressMeasure.AverageTenthsSpec | app/components/CrossStressTable.tsx:19-22 | the empty list averages 0; otherwise the result is within half a tenth of the mean, ties going up |
| StressMeasure.AverageBounds | app/components/CrossStressTable.tsx:19-22 | the average of values in lo..hi lies in 10 lo..10 hi tenths, and a constant list averages to itself |
| Rounding.SumBounds | app/components/CrossStressTable.tsx:21 | n values in lo..hi add up to a value in n lo..n hi |
| Rounding.RoundDivSpec | app/components/ClusterAICommentGenerator.tsx:66-68 | Math.round(s/n) is the integer r with r - 1/2 <= s/n < r + 1/2 |
| Rounding.RoundTenthsSpec | app/components/CrossStressTable.tsx:21 | Math.round(10 s/n) is within half a tenth of the mean, ties going up |
| Rounding.PercentSpec | app/components/ClusterAICommentGenerator.tsx:106 | the exact share 100 c/n rounded to the nearest whole percent, an exact tie going up (the source's floating-point product can round such a tie down, see Left out) |
| Rounding.RoundDivExact | app/components/ClusterAICommentGenerator.tsx:66-68 | rounding the mean of n copies of k gives k |
| Rounding.RoundDivBounds | app/components/ClusterAICommentGenerator.tsx:66-68 | rounding a mean of values in lo..hi stays in lo..hi |
| Rounding.RoundDivMonotone | app/components/ClusterAICommentGenerator.tsx:66-68 | rounding is monotone in the numerator |
| Rounding.RoundTenthsBounds | app/components/ClusterAICommentGenerator.tsx:70-72 | the one-decimal mean of values in lo..hi lies in 10 lo..10 hi tenths |
| StableSort.SortPermutes | app/components/CrossStressTable.tsx:135 | the sort is a permutation of its input |
| StableSort.SortSorted | app/components/CrossStressTable.tsx:135 | the result is ordered by key, descending |
| StableSort.SortStable | app/components/CrossStressTable.tsx:135 | elements with the same key keep their input order |
| StableSort.SortSpec | app/components/CrossStressTable.tsx:135 | descending, a permutation, and stable for every key |
| StableSort.Take | app/components/CrossStressTable.tsx:136 | slice(0, n) keeps the first min(n, length) elements |
| CrossMatrix.StressList | app/components/CrossStressTable.tsx:52 | one measure per member |
| CrossMatrix.BuildMatrix | app/components/CrossStressTable.tsx:37-54 | each cell holds, in population order, the users whose first matching row and first matching column are that cell, with their measures |
| CrossMatrix.CellMembersStep | app/components/CrossStressTable.tsx:48-54 | one more user extends exactly the cell it lands in |
| CrossMatrix.Placements | app/components/CrossStressTable.tsx:49-51 | one placement per user |
| CrossMatrix.MembersAreHits | app/components/CrossStressTable.tsx:48-54 | a cell's size is the number of users placed in it |
| CrossMatrix.PlacementsInRange | app/components/CrossStressTable.tsx:49-51 | every placement is a cell of the table |
| CrossMatrix.CellsPartitionPlaced | app/components/CrossStressTable.tsx:48-54 | the cells partition the users that match some row and some column: each is counted in exactly one cell |
| CrossMatrix.AverageLine | app/components/CrossStressTable.tsx:62-69 | one row of cell averages, widening min/max over its positive entries |
| CrossMatrix.AverageMatrix | app/components/CrossStressTable.tsx:57-70 | every cell's one-decimal average; min and max are the least and greatest positive average, or absent when none is positive |
| CrossMatrix.WidenSpans | app/components/CrossStressTable.tsx:65-68 | widening by a value keeps min/max the least and greatest element |
| CrossMatrix.CellDisplay | app/components/CrossStressTable.tsx:168 | a cell shows its average exactly when it is positive, and '-' otherwise |
| CrossMatrix.DisplayOfCell | app/components/CrossStressTable.tsx:160-168 | an empty cell shows '-'; a cell whose members answered items 18-46 within 1..4 shows an average in 29.0..116.0 |
| CrossMatrix.StressListBounds | app/components/CrossStressTable.tsx:52 | with valid answers every member's measure lies in 29..116 |
| ClusterRanking.RowPairsMembers | app/components/CrossStressTable.tsx:94-96 | the inner loop pairs key i with exactly the later keys |
| ClusterRanking.PairsUpToMembers | app/components/CrossStressTable.tsx:93-96 | the two loops visit exactly the pairs (a, b) with a < b |
| ClusterRanking.CandidatePairs | app/components/CrossStressTable.tsx:90-96 | the visited pairs are the six unordered pairs of the four candidate keys, in loop order |
| ClusterRanking.ScanCell | app/components/CrossStressTable.tsx:118-129 | a non-empty cell gives one candidate with its average, size, labels and users; an empty one gives none |
| ClusterRanking.ScanRow | app/components/CrossStressTable.tsx:117-130 | the candidates of one row, in column order |
| ClusterRanking.ScanGrid | app/components/CrossStressTable.tsx:97-131 | the candidates of one cross table, row by row |
| ClusterRanking.ScanPair | app/components/CrossStressTable.tsx:95-131 | the candidates of one key pair, x on the columns and y on the rows |
| ClusterRanking.ScanFrom | app/components/CrossStressTable.tsx:94-132 | for any table that agrees with each pair's entries, the inner loop's candidates are the table's entries for keys[i] paired with each later key, in order |
| ClusterRanking.ScanKeys | app/components/CrossStressTable.tsx:93-133 | the candidates of all visited pairs, in loop order |
| ClusterRanking.TopCandidates | app/components/CrossStressTable.tsx:90-133 | the scan over the four candidate keys |
| ClusterRanking.Top3Spec | app/components/CrossStressTable.tsx:135-136 | top3 holds min(3, n) candidates, ordered by average then size, both descending; no candidate left out ranks above one shown; ties keep scan order |
| ClusterRanking.ScanCandidatesSpec | app/components/CrossStressTable.tsx:116-129 | every candidate is a non-empty cell whose size is its member count, whose average is their one-decimal mean, and whose keys are one of the six pairs |
| DeptYears.FindRow | app/components/StressDeptYearsTable.tsx:34 | the first row whose range holds y, or none when no range does |
| DeptYears.ColumnOf | app/components/StressDeptYearsTable.tsx:5-37 | the column of a department, or none for a department the table has no column for |
| DeptYears.YearBuckets | app/components/StressDeptYearsTable.tsx:6-10 | exactly 1 year is row 0, 2 to 5 row 1, 6 or more row 2, and 0 or fewer no row |
| DeptYears.MissingYearsIsOne | app/components/StressDeptYearsTable.tsx:33 | a user without yearsOfService lands in the first row |
| DeptYears.BucketStep | app/components/StressDeptYearsTable.tsx:32-38 | one more user extends exactly the cell it lands in |
| DeptYears.PushStress | app/components/StressDeptYearsTable.tsx:36-37 | the push keeps every cell equal to the measures of its users so far |
| DeptYears.BuildDeptYears | app/components/StressDeptYearsTable.tsx:25-40 | buildMatrix fails at the first bucketed user whose department has no column; otherwise each cell holds its users' measures, in order |
| DeptYears.BucketsCover | app/components/StressDeptYearsTable.tsx:32-38 | without such a user, the six cells together hold every bucketed user exactly once |
| DeptYears.CellText | app/components/StressDeptYearsTable.tsx:72-76 | a cell shows '-' exactly when it is empty |
| DeptYears.CellTextOfBucket | app/components/StressDeptYearsTable.tsx:42-76 | a cell shows '-' exactly when none of the users is in it, and a mean in 29.0..116.0 when its users answered within 1..4 |
| Regression.PredictorsMembers | app/components/RegressionAnalysis.tsx:11 | an id is a predictor exactly when some scale carries it and is not of domain B |
| Regression.PredictorsKeepAll | app/components/RegressionAnalysis.tsx:11 | a run of A or C scales keeps every id, in order |
| Regression.PredictorsDropAll | app/components/RegressionAnalysis.tsx:11 | a run of B scales keeps nothing |
| Regression.PredictorIds | app/components/RegressionAnalysis.tsx:11 | the 13 predictors are A1-A9 then C1-C4, in catalog order |
| Regression.RegressionGenderAsWritten | app/components/RegressionAnalysis.tsx:24 | the tag test as written: only the literal '女性' selects the female table |
| Regression.FemaleTagReadAsMale | app/components/RegressionAnalysis.tsx:24 | a record tagged 'female' is scored with the male table |
| Regression.RegressionGender | app/components/RegressionAnalysis.tsx:24 | the intended test: 'female' selects the female table, and it agrees with every tag that names a table |
| Regression.GenderTestHasNoEffect | app/components/RegressionAnalysis.tsx:24-25 | while the female table is the male one, both tests give the same scores |
| Regression.PredictorsRated | app/components/RegressionAnalysis.tsx:25-30 | every predictor is a key of the user's scores, rated 1..5 |
| Regression.DesignRowAsWritten | app/components/RegressionAnalysis.tsx:24-31 | the row built with the corrected tag test equals the row built with the source's own '女性' test |
| Regression.DesignRowSpec | app/components/RegressionAnalysis.tsx:28-31 | a row has 14 entries: 1, then the 13 predictor ratings from the computed scores, each in 1..5; the fallback 0 is never used |
| Regression.BuildRow | app/components/RegressionAnalysis.tsx:28-31 | the row is 1 followed by the ratings of the ids, in order |
| Regression.BuildDesign | app/components/RegressionAnalysis.tsx:22-45 | one X row and one Y value per user: the user's design row and stress measure |
| Regression.ResultRoundTrip | app/components/RegressionAnalysis.tsx:51-54 | splitting the fitted vector into intercept and coefficients loses nothing, and the coefficients follow the predictor order |
| Regression.TopFactorsSpec | app/components/RegressionAnalysis.tsx:71-74 | at most three coefficients, by magnitude descending, each an input; none left out is larger; ties keep the predictor order |
| Regression.FindScale | app/components/RegressionAnalysis.tsx:76 | scanning from position k, the first scale carrying the id, or none when no later scale carries it |
| Regression.LabelOfSpec | app/components/RegressionAnalysis.tsx:76 | a catalog id shows its subscale's label and any other id shows itself |
| SubscaleAggregate.RawColumn | app/components/ClusterDetail.tsx:22-28 | one raw score per user, 0 where the entry is missing |
| SubscaleAggregate.EvalColumn | app/components/ClusterDetail.tsx:22-28 | one rating per user, 0 where the entry is missing |
| SubscaleAggregate.MeanSpec | app/components/ClusterDetail.tsx:30-33 | raw and eval are the half-up one-decimal means of the users' values |
| SubscaleAggregate.UserScoreBounds | app/components/ClusterDetail.tsx:23 | a user's scores have every catalog subscale, raw in 0..4 times its item count and rating in 1..5 |
| SubscaleAggregate.ColumnBounds | app/components/ClusterDetail.tsx:22-28 | every column entry lies within those bounds |
| SubscaleAggregate.MeanBounds | app/components/ClusterDetail.tsx:30-33 | every mean rating lies in 1.0..5.0 and every mean raw score in 0..4 times the item count |
| SubscaleAggregate.ColumnsStep | app/components/ClusterDetail.tsx:22-28 | one more user adds that user's raw score and rating to the column sums |
| SubscaleAggregate.ZeroTotals | app/components/ClusterDetail.tsx:18-20 | every id starts at raw 0, eval 0 |
| SubscaleAggregate.AddScores | app/components/ClusterDetail.tsx:24-27 | each id's totals gain the user's raw score and rating, 0 where missing |
| SubscaleAggregate.ToMeans | app/components/ClusterDetail.tsx:30-33 | each total is replaced by its one-decimal mean |
| SubscaleAggregate.AddUser | app/components/ClusterDetail.tsx:22-28 | after user i the totals are the column sums of the first i + 1 users |
| SubscaleAggregate.ZeroHolds | app/components/ClusterDetail.tsx:18-20 | zero totals are the totals of no users |
| SubscaleAggregate.TotalsToMeans | app/components/ClusterDetail.tsx:30-33 | the full totals become the per-id means |
| SubscaleAggregate.AggregateOver | app/components/ClusterDetail.tsx:18-33 | the three passes give each id the mean of its users' values |
| SubscaleAggregate.AggregateScores | app/components/ClusterDetail.tsx:14-36 | no users give the empty record; otherwise one entry per catalog id holding the means |
| Dashboard.FindUser | app/components/ScoreDashboard.tsx:19 | the first user carrying the id, or none |
| Dashboard.SelectUserSpec | app/components/ScoreDashboard.tsx:17-19 | the shown user is the first with the selected id, or users[0] when none has it; the initial selection shows users[0] |
| Dashboard.CatalogCaptions | app/components/ScoreDashboard.tsx:48 | a catalog label loses its ★ exactly for the reverse subscales, and then no longer ends in ★ |
| Dashboard.BuildDetails | app/components/ScoreDashboard.tsx:46-53 | one detail per scale: label without ★, reverse flag, raw and eval with 0 where missing |
| Dashboard.DetailedScores | app/components/ScoreDashboard.tsx:44-55 | one detail per catalog id |
| Dashboard.DetailsOfComputedScores | app/components/ScoreDashboard.tsx:24-51 | for the user's computed scores no default is used; the rating lies in 1..5 |
| ClusterComment.DomainTotalsStep | app/components/ClusterAICommentGenerator.tsx:49-54 | one more user adds that user's A, B and C to the totals |
| ClusterComment.SumDomains | app/components/ClusterAICommentGenerator.tsx:39-54 | the loop accumulates sumA, sumB and sumC as the component-wise totals of calculateScore |
| ClusterComment.DomainTotalsBounds | app/components/ClusterAICommentGenerator.tsx:39-54 | n users total 0..68n, 0..116n and 0..44n |
| ClusterComment.UniformTotals | app/components/ClusterAICommentGenerator.tsx:39-54 | users who share the scores d total n times d |
| ClusterComment.SingleUserKept | app/components/ClusterAICommentGenerator.tsx:80-88 | for one user a subscale is kept exactly when a reverse one is rated 2 or less, or a normal one 4 or more |
| ClusterComment.AverageSubs | app/components/ClusterAICommentGenerator.tsx:75-83 | each scale's entry carries its label without ★, its reverse flag and its means |
| ClusterComment.FilterSubs | app/components/ClusterAICommentGenerator.tsx:86-91 | exactly the entries with reverse and eval <= 2.5, or not reverse and eval >= 3.5, are kept, unchanged |
| ClusterComment.DedupMembers | app/components/ClusterAICommentGenerator.tsx:97-104 | the counter's keys are exactly the values seen, without repetition |
| ClusterComment.CountsAddUp | app/components/ClusterAICommentGenerator.tsx:100-104 | the counts add up to the group size |
| ClusterComment.KeyIndex | app/components/ClusterAICommentGenerator.tsx:101 | the position of a key among the counters, or none when it is not there |
| ClusterComment.Bump | app/components/ClusterAICommentGenerator.tsx:101-103 | one set(k, get(k) ?? 0 + 1) keeps the counters equal to the tallies of the users so far |
| ClusterComment.CountKeys | app/components/ClusterAICommentGenerator.tsx:97-104 | the counter Map holds the tallies in first-seen order |
| ClusterComment.TalliesSpec | app/components/ClusterAICommentGenerator.tsx:97-104 | each value seen is listed once, in first-seen order, with a count in 1..n, and the counts add up to n |
| ClusterComment.CountBounds | app/components/ClusterAICommentGenerator.tsx:101-103 | a count is at most n, and at least 1 for a value seen |
| ClusterComment.UniformShares | app/components/ClusterAICommentGenerator.tsx:106-110 | a group whose users share a value x has the one tally (x, n) and shows x100% |
| ClusterComment.YearsTotalDefined | app/components/ClusterAICommentGenerator.tsx:116 | the years sum is a number exactly when every user has a yearsOfService |
| ClusterComment.MeanYearsSpec | app/components/ClusterAICommentGenerator.tsx:116 | the mean years of service are defined exactly when every user has them, and then round the mean half-up |
| ClusterComment.FilteredSubs | app/components/ClusterAICommentGenerator.tsx:44-91 | the filtered record holds exactly the kept catalog subscales, each with its group means |
| ClusterComment.ClusterInfoOf | app/components/ClusterAICommentGenerator.tsx:97-117 | the summary strings of department, gender and location shares, each share rounded as Rounding.Percent does, and the mean years |
| ClusterComment.CommentInputOf | app/components/ClusterAICommentGenerator.tsx:26-120 | no users give zero means, no rounded means, no high stress, an empty filter and no info; otherwise the rounded and one-decimal means of the domain totals, the high-stress test on the rounded means, the kept subscales and the info |
| ClusterComment.MeansBounds | app/components/ClusterAICommentGenerator.tsx:62-72 | the rounded means lie in 0..68, 0..116 and 0..44 and the one-decimal means in ten times those ranges |
| ClusterComment.TotalSpec | app/components/ClusterAICommentGenerator.tsx:20-22 | the total is undefined exactly for no users, and otherwise lies in 0..228 (the total is passed on at line 128) |
| ClusterComment.UniformGroup | app/components/ClusterAICommentGenerator.tsx:62-94 | a group whose users share the scores d has d as its rounded means and so the same high-stress verdict |
| StressAiHandler.GradeMonotone | amplify/functions/stress-ai-comment/handler.ts:126-127 | a higher score never gives a lower level |
| StressAiHandler.PriorityAreas | amplify/functions/stress-ai-comment/handler.ts:138-148 | the work area is listed exactly when A >= 45, the physical one exactly when B >= 70, the support one exactly when C >= 25; nothing else is listed, at most three, in A, B, C order |
| StressAiHandler.AnalyzeStressLevel | amplify/functions/stress-ai-comment/handler.ts:122-133 | work level high exactly when A >= 45 and medium exactly when 30 <= A < 45; physical level high exactly when B >= 77 and medium exactly when 50 <= B < 77; support level low exactly when C >= 25, medium exactly when 20 <= C < 25, high exactly when C < 20; overall risk high exactly for high stress; the priority areas as above |
| StressAiHandler.AreasAgreeWithLevels | amplify/functions/stress-ai-comment/handler.ts:126-145 | the work and support areas are listed exactly when their levels are high and low; a high physical level always lists the physical area |
| StressAiHandler.PhysicalAreaBelowHigh | amplify/functions/stress-ai-comment/handler.ts:127-144 | at B = 70 the physical area is listed while its level is only medium: the two thresholds differ |
| StressAiHandler.SupportInverted | amplify/functions/stress-ai-comment/handler.ts:129 | a higher C never gives a higher support level |
| StressAiHandler.PriorityScalesOf | amplify/functions/stress-ai-comment/handler.ts:153-171 | at most one line per entry |
| StressAiHandler.GetPriorityScales | amplify/functions/stress-ai-comment/handler.ts:153-171 | the loop pushes, in entry order, the line of every reverse scale rated 2 or less and every normal scale rated 4 or more |
| StressAiHandler.PriorityScalesMembers | amplify/functions/stress-ai-comment/handler.ts:157-169 | every scale needing attention is listed, and every listed line is that of a scale needing attention |
| StressAiHandler.FocusAndAttention | amplify/functions/stress-ai-comment/handler.ts:158-181 | a scale needing attention is a focus scale, and on whole-number ratings the two rules agree |
| StressAiHandler.HalfPointFocus | amplify/functions/stress-ai-comment/handler.ts:165-181 | a normal scale at 3.5 is a focus scale without needing attention |
| StressAiHandler.FocusItems | amplify/functions/stress-ai-comment/handler.ts:179-181 | at most one item per entry, each with risk above 3 |
| StressAiHandler.Labels | amplify/functions/stress-ai-comment/handler.ts:184 | the labels of the items, in order |
| StressAiHandler.TopFocusSpec | amplify/functions/stress-ai-comment/handler.ts:179-184 | min(5, n) focus items ordered by risk descending, each a focus item; none left out has a higher risk; ties keep entry order |
| StressAiHandler.RetrieveQueryFrame | amplify/functions/stress-ai-comment/handler.ts:186-187 | the query starts with the head, the target and the middle part and ends with the tail; outside cluster mode the department is ignored; an absent department reads as unknown |
| StressAiHandler.Truncate | amplify/functions/stress-ai-comment/handler.ts:192-195 | a string that fits is returned unchanged; for 1 <= maxLen < length the result has length maxLen, keeps the first maxLen - 1 characters and ends in '…' |
| StressAiHandler.TruncateIdempotent | amplify/functions/stress-ai-comment/handler.ts:192-195 | truncating twice is truncating once |
| StressAiHandler.TruncateNonPositive | amplify/functions/stress-ai-comment/handler.ts:194 | for maxLen <= 0 slice counts from the end, so the result is longer than maxLen |
| StressAiHandler.LevelIndex | amplify/functions/stress-ai-comment/handler.ts:239 | the rounded and clamped rating lies in 1..5 |
| StressAiHandler.LevelText | amplify/functions/stress-ai-comment/handler.ts:238-254 | the label is never empty |
| StressAiHandler.LevelTextSpec | amplify/functions/stress-ai-comment/handler.ts:238-254 | the label is the one for the clamped rounded rating, and the rating never decreases with the value |
| StressAiHandler.LevelOfWholeRating | amplify/functions/stress-ai-comment/handler.ts:239-250 | a whole rating k in 1..5 gets the k-th label |
| StressAiHandler.FocusLinesMatchQuery | amplify/functions/stress-ai-comment/handler.ts:179-181 | the prompt lists one line per focus item of the query, in entry order, with the unreversed rating's label (the lines are rendered as at lines 257-266) |
| StressAiHandler.LanguageFallback | amplify/functions/stress-ai-comment/handler.ts:211-225 | an absent or empty language, or one whose lower-cased tag is none of the known ones, is Japanese |
| StressAiHandler.LanguageCaseInsensitive | amplify/functions/stress-ai-comment/handler.ts:211 | the tag test ignores case |
| StressAiHandler.GenderTextDistinct | amplify/functions/stress-ai-comment/handler.ts:268-276 | in every language male, female and unknown read differently, and any other tag reads as unknown |
| StressAiHandler.ClusterModeSpec | amplify/functions/stress-ai-comment/handler.ts:278 | the flag selects cluster mode; no flag and no name does not; the name クラスタ平均 does |
| StressAiHandler.FinalPromptPrefix | amplify/functions/stress-ai-comment/handler.ts:70-73 | the final prompt starts with the prompt and is followed by nothing or by the marker and the trimmed extra text |
| StressAiHandler.FinalPromptBlank | amplify/functions/stress-ai-comment/handler.ts:71 | nothing is appended exactly when the extra text is absent or all whitespace |
| StressAiHandler.FinalPromptPretrimmed | amplify/functions/stress-ai-comment/handler.ts:72 | trimming the extra text beforehand changes nothing |
| SubscaleRadar.ChunksSpec | app/components/SubscaleRadar.tsx:24-35 | the slices of a part put back together are the part, and each has 1..maxPerLine characters |
| SubscaleRadar.ChunkAllSpec | app/components/SubscaleRadar.tsx:23-27 | the slices of all parts put back together are the parts joined together, each of 1..maxPerLine characters |
| SubscaleRadar.NonEmpty | app/components/SubscaleRadar.tsx:21 | filter(Boolean) keeps only non-empty parts of the input |
| SubscaleRadar.NonEmptyFlatten | app/components/SubscaleRadar.tsx:21 | dropping empty parts loses no characters |
| SubscaleRadar.FirstIncluded | app/components/SubscaleRadar.tsx:19-20 | the first separator the label contains, or none when it contains none |
| SubscaleRadar.PushChunks | app/components/SubscaleRadar.tsx:24-35 | the loop appends the part's slices of maxPerLine characters to the lines |
| SubscaleRadar.WrapJapaneseLabel | app/components/SubscaleRadar.tsx:15-37 | the two loops build the wrapped label as specified |
| SubscaleRadar.WrapSpec | app/components/SubscaleRadar.tsx:15-37 | a single string is the cleaned label and fits; every line has 1..maxPerLine characters; with no separator the label stays whole exactly when it fits, and its lines join back into it; with a separator the lines are the label without that separator, which split and join restore |
| SubscaleRadar.StarBecomesAsterisk | app/components/SubscaleRadar.tsx:16 | a trailing ★ becomes * |
| SubscaleRadar.Plotted | app/components/SubscaleRadar.tsx:41-42 | one value per scale |
| SubscaleRadar.PlottedSpec | app/components/SubscaleRadar.tsx:41-42 | each point is the scale's rating, 3 where the scale is missing; the baseline is absent without baseline scores, otherwise one point per scale, 3.0 where missing |
| SubscaleRadar.DataValsOfUser | app/components/SubscaleRadar.tsx:41 | for a user's computed scores every point is the scale's own rating, in 1..5 |
| SubscaleRadar.BaseValsOfGroup | app/components/SubscaleRadar.tsx:42 | for group means every baseline point is the scale's mean rating, in 1.0..5.0 |
| Estimate.FindHeaderRow | scripts/generateEstimate.js:25 | the first row with a truthy cell, or none when no row has one |
| Estimate.TrimCells | scripts/generateEstimate.js:27 | one header per cell |
| Estimate.HeadersSpec | scripts/generateEstimate.js:15-35 | the headers are the trimmed cells of the first row with a truthy cell; with no template or no such row they are the 7 default names; template headers never start with whitespace (used as the headers at line 134) |
| Estimate.FillRow | scripts/generateEstimate.js:73-102 | the switch gives each header its cell for the item |
| Estimate.FillSummary | scripts/generateEstimate.js:117-122 | each header gets the summary row's cell |
| Estimate.BuildRows | scripts/generateEstimate.js:66-126 | the loops give one row per item and then the subtotal, tax and total rows |
| Estimate.BuildEstimateRows | scripts/generateEstimate.js:42-127 | buildEstimateRows over the fixed 17 items |
| Estimate.EstimateShape | scripts/generateEstimate.js:66-126 | n items give n + 3 rows, each keyed by exactly the headers, the first n being the item rows |
| Estimate.ItemRowsIndex | scripts/generateEstimate.js:69-104 | row i is the row of item i |
| Estimate.ItemRowSpec | scripts/generateEstimate.js:70-101 | the amount is quantity times 80000, the unit price 80000, the item name under 項目, and an unknown header or 備考 is empty |
| Estimate.SummaryRowsSpec | scripts/generateEstimate.js:106-124 | the last three rows carry 小計, 消費税(10%) and 合計 under 項目, the subtotal, tax and their sum under 金額, and '' elsewhere |
| Estimate.TaxSpec | scripts/generateEstimate.js:107 | the tax is a tenth of the subtotal rounded half-up, and exact for a multiple of 10 |
| Estimate.SubtotalOfQuantities | scripts/generateEstimate.js:67-71 | the subtotal is 80000 times the total quantity |
| Estimate.QuoteTotals | scripts/generateEstimate.js:46-64 | the 17 items total 173 days: subtotal 13,840,000, tax 1,384,000, total 15,224,000 (tax and total as at lines 107-108) |
| Estimate.SheetLine | scripts/generateEstimate.js:139 | one cell per header |
| Estimate.Sheet | scripts/generateEstimate.js:139 | the header line and one line per row |
| Estimate.SheetLineSpec | scripts/generateEstimate.js:139 | cell i of a line is the row's value under header i |
| Estimate.SheetSpec | scripts/generateEstimate.js:139 | the sheet has n + 4 lines of one cell per header, line k + 1 being row k read in header order |
| KbUpload.MissingArguments | amplify/functions/kb-upload/uploader.ts:29-56 | a missing or empty fileName or contentBase64 fails with its message, whatever S3 would do |
| KbUpload.BucketChoice | amplify/functions/kb-upload/uploader.ts:31-32 | KB_S3_BUCKET wins when set, the bucket argument is used otherwise, and with neither the call fails |
| KbUpload.NormalizePrefixSpec | amplify/functions/kb-upload/uploader.ts:33-36 | the normalised prefix is empty exactly for an empty or absent prefix; a slash is appended only when missing; it then ends in '/' and normalising again changes nothing |
| KbUpload.KeySpec | amplify/functions/kb-upload/uploader.ts:33-37 | the key is the normalised prefix followed by the file name; without a prefix it is the file name |
| KbUpload.RegionSpec | amplify/functions/kb-upload/uploader.ts:9-23 | no constraint gives us-east-1, 'EU' gives eu-west-1, any other constraint is kept, a failed lookup gives AWS_REGION or us-east-1; the region is never empty |
| KbUpload.PutRequestSpec | amplify/functions/kb-upload/uploader.ts:40-50 | the upload goes to the chosen bucket and key, in the resolved region, as application/pdf |
| KbUpload.UploadSpec | amplify/functions/kb-upload/uploader.ts:25-57 | success exactly when the checks pass and the upload succeeds, naming the key written; otherwise a failure carrying the check's message or the S3 error |
| KbList.MaxKeysSpec | amplify/functions/kb-upload/list.ts:9-11 | MaxKeys is 100 for an absent, zero or non-numeric argument, the argument itself up to 1000, 1000 above that, never more than 1000 and never 0 |
| KbList.PrefixOf | amplify/functions/kb-upload/list.ts:9 | an absent prefix is '' and a given one is kept |
| KbList.PdfObjects | amplify/functions/kb-upload/list.ts:13-14 | the filter keeps at most the objects it is given |
| KbList.PdfObjectsAppend | amplify/functions/kb-upload/list.ts:13-14 | the filter distributes over concatenation, so the listing order is kept |
| KbList.PdfObjectsMembers | amplify/functions/kb-upload/list.ts:14 | exactly the objects whose key ends in .pdf, ignoring case, are kept |
| KbList.PdfObjectsIdempotent | amplify/functions/kb-upload/list.ts:13-14 | filtering twice is filtering once, and a listing of PDFs only is kept whole |
| KbList.PdfCaseInsensitive | amplify/functions/kb-upload/list.ts:14 | the extension test ignores case, and an object without a key is never kept |
| KbList.ItemOf | amplify/functions/kb-upload/list.ts:15 | an item carries exactly the object's key, size and lastModified |
| KbList.Items | amplify/functions/kb-upload/list.ts:13-15 | one item per kept object, in order |
| KbList.ListDocsSpec | amplify/functions/kb-upload/list.ts:6-20 | a success echoes the bucket and the defaulted prefix and lists the kept objects' items in order; absent Contents gives no items; an S3 error becomes a failure with its message |
| JsString.TrimStart | amplify/functions/stress-ai-comment/handler.ts:71 | removes exactly the leading whitespace |
| JsString.TrimEnd | amplify/functions/stress-ai-comment/handler.ts:71 | removes exactly the trailing whitespace |
| JsString.Trim | amplify/functions/stress-ai-comment/handler.ts:71-72 | the result neither starts nor ends with whitespace |
| JsString.TrimAllWhitespace | amplify/functions/stress-ai-comment/handler.ts:71 | trimming gives '' exactly for an all-whitespace string |
| JsString.TrimIdempotent | amplify/functions/stress-ai-comment/handler.ts:72 | trimming twice is trimming once |
| JsString.LowerAscii | amplify/functions/kb-upload/list.ts:14 | same length; each letter A-Z becomes its lower-case letter and every other character is kept |
| JsString.LowerAsciiIdempotent | amplify/functions/stress-ai-comment/handler.ts:211 | lower-casing twice is lower-casing once |
| JsString.IndexOf | app/components/SubscaleRadar.tsx:20 | the first position at which the separator occurs, or none when it occurs nowhere |
| JsString.Split | app/components/SubscaleRadar.tsx:21 | splitting always gives at least one piece |
| JsString.SplitPiecesExcludeSep | app/components/SubscaleRadar.tsx:21 | no piece contains the separator |
| JsString.JoinSplit | app/components/SubscaleRadar.tsx:21 | joining the pieces with the separator gives the string back |
| JsString.SliceIndex | app/components/SubscaleRadar.tsx:25 | a slice bound is clamped to the string, counting from the end when negative |
| JsString.Slice | app/components/SubscaleRadar.tsx:24-26 | a slice within bounds is the substring, and never longer than the string |
| JsString.ReplaceTrailing | app/components/SubscaleRadar.tsx:16 | a trailing character is replaced, and a string without it is unchanged |
| JsString.NatText | app/components/ClusterAICommentGenerator.tsx:109 | a number's decimal text is never empty |
| JsString.NatTextRoundTrip | app/components/ClusterAICommentGenerator.tsx:109 | reading the decimal text back gives the number, and only 0 starts with the digit 0 |
| JsString.IntText | app/components/ClusterAICommentGenerator.tsx:109 | a negative number is written with a minus sign before the text of its magnitude |

## Left out

- The least-squares solve in `app/components/RegressionAnalysis.tsx` (mathjs `inv`, `multiply`, `transpose` over floating point) is a foreign numeric library; the model builds the design matrix and takes the fitted vector as a parameter, and the singular case, where mathjs throws, is not modelled.
- The Bedrock client and `generateAiComment` in the comment handler are a network call; the multilingual prompt template texts are left out except for the rules that choose what goes into them.
- The S3 calls of `uploader.ts` and `list.ts` become parameters (the bucket-location reply, the upload error, the listing reply); `delete.ts` is only a required-key check before a network call and is not part of this model; base64 decoding and console logging are left out.
- Floating point: the handler's scores and ratings are reals; every other quotient the source rounds is a quotient of integers, and the model rounds the exact quotient half up. For the means in tenths and for `Math.round(subtotal * 0.1)` on the fixed estimate no tie is known where the floating-point computation rounds otherwise, but doubles are not modelled, so this is not proved; for the percent shares such ties exist (next lines).
- Rounding.Percent: rounds the exact share 100 c/n half up, while the source computes `Math.round((count / users.length) * 100)` in doubles, where the product can fall just below a half on an exact tie: 23 of 40 is 57.5% exactly, the double product is 57.49999999999999, so the source writes 57 and the model 58 (likewise 29 of 200 and 113 of 200). IEEE double arithmetic is not modelled.
- Rounding.PercentSpec: states the half-up rounding of the exact share, so on such ties it promises one more than the source shows.
- ClusterComment.SummaryText: writes each share with Rounding.Percent, so on those ties its text can read one percent higher than the source's.
- ClusterComment.ClusterInfoOf: its summary strings come from ClusterComment.SummaryText and share the same tie difference.
- JavaScript NaN: `levelText`'s empty-string default is reachable only through NaN, which reals do not have; a cluster mean over no users and a missing years of service are modelled as `None` instead of NaN.
- String lengths count code points where JavaScript counts UTF-16 units (they agree on the Japanese text the core handles), and `toLowerCase` is modelled on ASCII letters only, which is exact for ASCII tags and keys; JavaScript also folds some other characters onto ASCII letters (U+212A KELVIN SIGN lowercases to 'k'), which the model does not.
- The XLSX template read and the workbook write of `scripts/generateEstimate.js` are file I/O; `yen` returns its argument unchanged on every input, so the rows carry the numbers themselves.
- Rendering: colours (`colorOf`), chart scales, column widths and every React component's state and markup are presentation.
- The respondent population is a parameter: `lib/data/users.ts` loads dummy data that is not part of this model.
- SubscaleRadar.WrapJapaneseLabel: requires `maxPerLine > 0`; with 0 or less the source's loops never end, so the model states nothing there.
- StressAiHandler.Truncate: its ensures covers `maxLen >= 1` and the string that fits; the case `maxLen <= 0`, where `slice` counts from the end, is stated separately by `StressAiHandler.TruncateNonPositive`.
- KbList.MaxKeys: `maxKeys` is modelled as an integer, undefined or NaN; a fractional number is not modelled.
- KbList.PrefixOf: the destructuring default `prefix = ''` replaces only undefined; a null prefix passes through as null in the source, and `Option` does not tell null from absent, so the model reads null as ''.
- Dashboard.SelectUser: requires a non-empty population, because with no users the selected user is undefined and destructuring it throws.
- The aggregations over users require every gender to be 'male' or 'female', the type the source declares for `calculateSubscaleScores`; any other tag would make the source read an undefined table.

## Findings

| source | as written | input that shows it | evidently intended | confidence | as-written member | corrected member |
|---|---|---|---|---|---|---|
| app/components/RegressionAnalysis.tsx:24 | the gender tag is compared with '女性', while the records carry 'male' or 'female' | a respondent tagged 'female' is scored with the male table (`Regression.FemaleTagReadAsMale`) | 'female' selects the female table | not executed; no observable effect while the female table is the male one | Regression.RegressionGenderAsWritten | Regression.RegressionGender |
