/**
 * The per-subscale means of a group of users, as aggregateScores of
 * ClusterDetail.tsx and the baseline of ScoreDashboard.tsx compute them:
 * raw score and rating summed per catalog id over the users (a missing
 * entry adds 0), then each sum replaced by its half-up mean to one
 * decimal. Means are held in tenths; no users gives the empty record.
 */
module SubscaleAggregate {
  import opened Rounding
  import opened SubscaleMeta
  import opened EvaluationConversion
  import opened SubscaleScoring
  import opened Users

  /** The subscale scores of a user, with the table its gender tag names. */
  function UserScores(u: User): map<string, SubScore>
    requires Scorable(u)
  {
    SubscaleScoresOf(u.responses, GenderOf(u.gender).value)
  }

  /** The users' raw scores of subscale id, in population order; 0 where missing. */
  function RawColumn(users: seq<User>, id: string): (col: seq<int>)
    requires AllScorable(users)
    ensures |col| == |users|
  {
    if users == [] then [] else RawColumn(users[..|users| - 1], id) + [RawOr0(UserScores(users[|users| - 1]), id)]
  }

  /** The users' ratings of subscale id, in population order; 0 where missing. */
  function EvalColumn(users: seq<User>, id: string): (col: seq<int>)
    requires AllScorable(users)
    ensures |col| == |users|
  {
    if users == [] then [] else EvalColumn(users[..|users| - 1], id) + [EvalOr0(UserScores(users[|users| - 1]), id)]
  }

  /** One entry of the record: the one-decimal means of the column, in tenths. */
  function Mean(users: seq<User>, id: string): SubScore
    requires AllScorable(users) && users != []
  {
    SubScore(RoundTenths(Sum(RawColumn(users, id)), |users|), RoundTenths(Sum(EvalColumn(users, id)), |users|))
  }

  /** raw and eval are the half-up one-decimal means: n (2 m - 1) <= 20 sum < n (2 m + 1), m in tenths. */
  lemma MeanSpec(users: seq<User>, id: string)
    requires AllScorable(users) && users != []
    ensures var n, m := |users|, Mean(users, id);
      n * (2 * m.raw - 1) <= 20 * Sum(RawColumn(users, id)) < n * (2 * m.raw + 1)
      && n * (2 * m.eval - 1) <= 20 * Sum(EvalColumn(users, id)) < n * (2 * m.eval + 1)
  {
    RoundTenthsSpec(Sum(RawColumn(users, id)), |users|);
    RoundTenthsSpec(Sum(EvalColumn(users, id)), |users|);
  }

  /** A scorable user has every catalog subscale, raw in 0..4 |items| and rating in 1..5. */
  lemma UserScoreBounds(u: User, i: nat)
    requires Scorable(u) && i < |SUBSCALES|
    ensures SUBSCALES[i].id in UserScores(u)
    ensures 0 <= RawOr0(UserScores(u), SUBSCALES[i].id) <= 4 * |SUBSCALES[i].items|
    ensures 1 <= EvalOr0(UserScores(u), SUBSCALES[i].id) <= 5
  {
    SubscaleScoresSpec(u.responses, GenderOf(u.gender).value);
  }

  lemma {:induction false} ColumnBounds(users: seq<User>, i: nat)
    requires AllScorable(users) && i < |SUBSCALES|
    ensures forall k :: 0 <= k < |users| ==>
      0 <= RawColumn(users, SUBSCALES[i].id)[k] <= 4 * |SUBSCALES[i].items| && 1 <= EvalColumn(users, SUBSCALES[i].id)[k] <= 5
  {
    if users != [] {
      ColumnBounds(users[..|users| - 1], i);
      UserScoreBounds(users[|users| - 1], i);
    }
  }

  /**
   * With users, every mean rating lies in 1.0..5.0 (10..50 tenths) and
   * every mean raw score in 0..4 |items|, as the users' own values do.
   */
  lemma MeanBounds(users: seq<User>, i: nat)
    requires AllScorable(users) && users != [] && i < |SUBSCALES|
    ensures 10 <= Mean(users, SUBSCALES[i].id).eval <= 50
    ensures 0 <= Mean(users, SUBSCALES[i].id).raw <= 40 * |SUBSCALES[i].items|
  {
    var id := SUBSCALES[i].id;
    ColumnBounds(users, i);
    RoundTenthsBounds(EvalColumn(users, id), 1, 5);
    RoundTenthsBounds(RawColumn(users, id), 0, 4 * |SUBSCALES[i].items|);
  }

  /** Adding user i to the columns of users[..i]. */
  lemma ColumnsStep(users: seq<User>, i: nat, id: string)
    requires AllScorable(users) && i < |users|
    ensures Sum(RawColumn(users[..i + 1], id)) == Sum(RawColumn(users[..i], id)) + RawOr0(UserScores(users[i]), id)
    ensures Sum(EvalColumn(users[..i + 1], id)) == Sum(EvalColumn(users[..i], id)) + EvalOr0(UserScores(users[i]), id)
  {
    assert users[..i + 1][..i] == users[..i];
    SumAppend(RawColumn(users[..i], id), RawOr0(UserScores(users[i]), id));
    SumAppend(EvalColumn(users[..i], id), EvalOr0(UserScores(users[i]), id));
  }

  /** The set of ids a list holds. */
  function KeySet(ids: seq<string>): set<string> {
    set id | id in ids
  }

  /** The initialisation loop: every id at raw 0, eval 0. */
  method ZeroTotals(ids: seq<string>) returns (acc: map<string, SubScore>)
    ensures acc.Keys == KeySet(ids)
    ensures forall id :: id in acc ==> acc[id] == SubScore(0, 0)
  {
    acc := map[];
    for k := 0 to |ids|
      invariant acc.Keys == KeySet(ids[..k])
      invariant forall id :: id in acc ==> acc[id] == SubScore(0, 0)
    {
      assert ids[..k + 1] == ids[..k] + [ids[k]];
      acc := acc[ids[k] := SubScore(0, 0)];
    }
    assert ids[..|ids|] == ids;
  }

  /** The += pass for one user: each id's totals gain the user's raw and eval (0 where missing). */
  method AddScores(ids: seq<string>, acc: map<string, SubScore>, sub: map<string, SubScore>) returns (acc': map<string, SubScore>)
    requires Distinct(ids) && acc.Keys == KeySet(ids)
    ensures acc'.Keys == KeySet(ids)
    ensures forall id :: id in acc ==> acc'[id] == SubScore(acc[id].raw + RawOr0(sub, id), acc[id].eval + EvalOr0(sub, id))
  {
    acc' := acc;
    for k := 0 to |ids|
      invariant acc'.Keys == KeySet(ids)
      invariant forall j :: 0 <= j < |ids| ==>
        acc'[ids[j]] == if j < k then SubScore(acc[ids[j]].raw + RawOr0(sub, ids[j]), acc[ids[j]].eval + EvalOr0(sub, ids[j])) else acc[ids[j]]
    {
      var id := ids[k];
      var raw := if id in sub then sub[id].raw else 0;
      var eval := if id in sub then sub[id].eval else 0;
      acc' := acc'[id := SubScore(acc'[id].raw + raw, acc'[id].eval + eval)];
    }
  }

  /** The final pass: each total overwritten by its one-decimal mean over n users. */
  method ToMeans(ids: seq<string>, acc: map<string, SubScore>, n: int) returns (agg: map<string, SubScore>)
    requires n > 0 && Distinct(ids) && acc.Keys == KeySet(ids)
    ensures agg.Keys == KeySet(ids)
    ensures forall id :: id in acc ==> agg[id] == SubScore(RoundTenths(acc[id].raw, n), RoundTenths(acc[id].eval, n))
  {
    agg := acc;
    for k := 0 to |ids|
      invariant agg.Keys == KeySet(ids)
      invariant forall j :: 0 <= j < |ids| ==>
        agg[ids[j]] == if j < k then SubScore(RoundTenths(acc[ids[j]].raw, n), RoundTenths(acc[ids[j]].eval, n)) else acc[ids[j]]
    {
      var id := ids[k];
      agg := agg[id := SubScore(RoundTenths(agg[id].raw, n), RoundTenths(agg[id].eval, n))];
    }
  }

  /** acc holds, per catalog id, the totals of users[..i]. */
  predicate HoldsTotals(users: seq<User>, i: nat, keys: set<string>, acc: map<string, SubScore>)
    requires AllScorable(users) && i <= |users|
  {
    acc.Keys == keys
      && forall id :: id in keys ==> acc[id] == SubScore(Sum(RawColumn(users[..i], id)), Sum(EvalColumn(users[..i], id)))
  }

  /** The body of users.forEach: user i's scores added to the totals. */
  method AddUser(users: seq<User>, i: nat, ids: seq<string>, acc: map<string, SubScore>) returns (acc': map<string, SubScore>)
    requires AllScorable(users) && i < |users|
    requires Distinct(ids)
    requires HoldsTotals(users, i, KeySet(ids), acc)
    ensures HoldsTotals(users, i + 1, KeySet(ids), acc')
  {
    var u := users[i];
    var sub := CalculateSubscaleScores(u.responses, GenderOf(u.gender).value);
    acc' := AddScores(ids, acc, sub);
    forall id | id in KeySet(ids)
      ensures acc'[id] == SubScore(Sum(RawColumn(users[..i + 1], id)), Sum(EvalColumn(users[..i + 1], id)))
    {
      ColumnsStep(users, i, id);
    }
  }

  /** Zero totals are the totals of no users. */
  lemma ZeroHolds(users: seq<User>, acc: map<string, SubScore>)
    requires AllScorable(users)
    requires forall id :: id in acc ==> acc[id] == SubScore(0, 0)
    ensures HoldsTotals(users, 0, acc.Keys, acc)
  {
  }

  /** The last SUBSCALES.forEach: the full totals become the means. */
  method TotalsToMeans(users: seq<User>, ids: seq<string>, acc: map<string, SubScore>) returns (agg: map<string, SubScore>)
    requires AllScorable(users) && users != []
    requires Distinct(ids)
    requires HoldsTotals(users, |users|, KeySet(ids), acc)
    ensures agg.Keys == KeySet(ids)
    ensures forall id :: id in agg ==> agg[id] == Mean(users, id)
  {
    agg := ToMeans(ids, acc, |users|);
    assert users[..|users|] == users;
  }

  /** The three passes over a list of distinct ids, for a non-empty group. */
  method AggregateOver(users: seq<User>, ids: seq<string>) returns (agg: map<string, SubScore>)
    requires AllScorable(users) && users != [] && Distinct(ids)
    ensures agg.Keys == KeySet(ids)
    ensures forall id :: id in agg ==> agg[id] == Mean(users, id)
  {
    var acc := ZeroTotals(ids);
    ZeroHolds(users, acc);
    for i := 0 to |users|
      invariant HoldsTotals(users, i, KeySet(ids), acc)
    {
      acc := AddUser(users, i, ids, acc);
    }
    agg := TotalsToMeans(users, ids, acc);
  }

  /** aggregateScores (and the ScoreDashboard baseline over all users). */
  method AggregateScores(users: seq<User>) returns (agg: map<string, SubScore>)
    requires AllScorable(users)
    ensures users == [] ==> agg == map[]
    ensures users != [] ==> agg.Keys == IdSet()
    ensures users != [] ==> forall id :: id in agg ==> agg[id] == Mean(users, id)
  {
    if |users| == 0 {
      return map[];
    }
    CatalogIdsKeys();
    agg := AggregateOver(users, CatalogIds());
  }
}
