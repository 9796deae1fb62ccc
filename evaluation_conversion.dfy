/**
 * The tables that turn a subscale's raw score into a 1-5 rating: for each
 * subscale id four thresholds [t1, t2, t3, t4]. A tuple with t1 > t4 is
 * "descending" (a high raw score is good); otherwise it is "ascending".
 * The female table is the male table itself: the source marks the female
 * data as still to be filled in.
 */
module EvaluationConversion {
  import opened SubscaleMeta

  type EvaluationTable = map<string, seq<int>>

  datatype Gender = Male | Female

  const MALE_EVAL_TABLE: EvaluationTable := map[
    "A1" := [4, 6, 8, 10],
    "A2" := [4, 6, 8, 10],
    "A3" := [1, 2, 3, 3],
    "A4" := [4, 6, 8, 10],
    "A5" := [1, 2, 3, 3],
    "A6" := [10, 8, 6, 4],
    "A7" := [3, 2, 2, 1],
    "A8" := [3, 2, 2, 1],
    "A9" := [3, 2, 2, 1],
    "B1" := [10, 8, 6, 4],
    "B2" := [4, 6, 8, 10],
    "B3" := [4, 6, 8, 10],
    "B4" := [4, 6, 8, 10],
    "B5" := [9, 12, 15, 18],
    "B6" := [15, 20, 25, 30],
    "C1" := [10, 8, 6, 4],
    "C2" := [13, 10, 7, 4],
    "C3" := [7, 5, 4, 2],
    "C4" := [7, 5, 4, 2]
  ]

  const FEMALE_EVAL_TABLE: EvaluationTable := MALE_EVAL_TABLE

  /** EVAL_TABLES[gender]. */
  function EvalTable(g: Gender): EvaluationTable {
    match g
    case Male => MALE_EVAL_TABLE
    case Female => FEMALE_EVAL_TABLE
  }

  predicate Descending(t: seq<int>)
    requires |t| == 4
  {
    t[0] > t[3]
  }

  /** The table's entry for catalog entry i, written out per subscale. */
  lemma EntryOf(i: int)
    requires 0 <= i < |SUBSCALES|
    ensures SUBSCALES[i].id in MALE_EVAL_TABLE
    ensures var t := MALE_EVAL_TABLE[SUBSCALES[i].id];
      |t| == 4 && (SUBSCALES[i].reverse <==> Descending(t))
      && (Descending(t) ==> t[0] >= t[1] >= t[2] >= t[3])
      && (!Descending(t) ==> t[0] <= t[1] <= t[2] <= t[3])
  {
    if i < 5 {
      EntryOfA1(i);
    } else if i < 9 {
      EntryOfA2(i);
    } else if i < 15 {
      EntryOfB(i);
    } else {
      EntryOfC(i);
    }
  }

  lemma EntryOfA1(i: int)
    requires 0 <= i < 5
    ensures SUBSCALES[i].id in MALE_EVAL_TABLE
    ensures var t := MALE_EVAL_TABLE[SUBSCALES[i].id];
      |t| == 4 && (SUBSCALES[i].reverse <==> Descending(t))
      && (Descending(t) ==> t[0] >= t[1] >= t[2] >= t[3])
      && (!Descending(t) ==> t[0] <= t[1] <= t[2] <= t[3])
  {
    assert i == 0 || i == 1 || i == 2 || i == 3 || i == 4;
  }

  lemma EntryOfA2(i: int)
    requires 5 <= i < 9
    ensures SUBSCALES[i].id in MALE_EVAL_TABLE
    ensures var t := MALE_EVAL_TABLE[SUBSCALES[i].id];
      |t| == 4 && (SUBSCALES[i].reverse <==> Descending(t))
      && (Descending(t) ==> t[0] >= t[1] >= t[2] >= t[3])
      && (!Descending(t) ==> t[0] <= t[1] <= t[2] <= t[3])
  {
    assert i == 5 || i == 6 || i == 7 || i == 8;
  }

  lemma EntryOfB(i: int)
    requires 9 <= i < 15
    ensures SUBSCALES[i].id in MALE_EVAL_TABLE
    ensures var t := MALE_EVAL_TABLE[SUBSCALES[i].id];
      |t| == 4 && (SUBSCALES[i].reverse <==> Descending(t))
      && (Descending(t) ==> t[0] >= t[1] >= t[2] >= t[3])
      && (!Descending(t) ==> t[0] <= t[1] <= t[2] <= t[3])
  {
    assert i == 9 || i == 10 || i == 11 || i == 12 || i == 13 || i == 14;
  }

  lemma EntryOfC(i: int)
    requires 15 <= i < 19
    ensures SUBSCALES[i].id in MALE_EVAL_TABLE
    ensures var t := MALE_EVAL_TABLE[SUBSCALES[i].id];
      |t| == 4 && (SUBSCALES[i].reverse <==> Descending(t))
      && (Descending(t) ==> t[0] >= t[1] >= t[2] >= t[3])
      && (!Descending(t) ==> t[0] <= t[1] <= t[2] <= t[3])
  {
    assert i == 15 || i == 16 || i == 17 || i == 18;
  }

  /** Every key of the table is a catalog id. */
  lemma KeysAreCatalogIds()
    ensures forall k :: k in MALE_EVAL_TABLE ==> IsCatalogId(k)
  {
    forall k | k in MALE_EVAL_TABLE ensures IsCatalogId(k) {
      assert k == SUBSCALES[0].id || k == SUBSCALES[1].id || k == SUBSCALES[2].id || k == SUBSCALES[3].id
          || k == SUBSCALES[4].id || k == SUBSCALES[5].id || k == SUBSCALES[6].id || k == SUBSCALES[7].id
          || k == SUBSCALES[8].id || k == SUBSCALES[9].id || k == SUBSCALES[10].id || k == SUBSCALES[11].id
          || k == SUBSCALES[12].id || k == SUBSCALES[13].id || k == SUBSCALES[14].id || k == SUBSCALES[15].id
          || k == SUBSCALES[16].id || k == SUBSCALES[17].id || k == SUBSCALES[18].id;
    }
  }

  /**
   * Both tables have exactly the catalog's ids as keys and a 4-tuple for each;
   * a tuple is descending exactly for the catalog's reverse subscales; ascending
   * tuples never decrease and descending ones never increase.
   */
  lemma TablesMatchCatalog(g: Gender)
    ensures EvalTable(g) == MALE_EVAL_TABLE
    ensures EvalTable(g).Keys == IdSet()
    ensures forall k :: k in EvalTable(g) ==> |EvalTable(g)[k]| == 4
    ensures forall i :: 0 <= i < |SUBSCALES| ==>
      var t := EvalTable(g)[SUBSCALES[i].id];
      |t| == 4 && (SUBSCALES[i].reverse <==> Descending(t))
      && (Descending(t) ==> t[0] >= t[1] >= t[2] >= t[3])
      && (!Descending(t) ==> t[0] <= t[1] <= t[2] <= t[3])
  {
    KeysAreCatalogIds();
    forall i | 0 <= i < |SUBSCALES|
      ensures SUBSCALES[i].id in MALE_EVAL_TABLE
      ensures var t := MALE_EVAL_TABLE[SUBSCALES[i].id];
        |t| == 4 && (SUBSCALES[i].reverse <==> Descending(t))
        && (Descending(t) ==> t[0] >= t[1] >= t[2] >= t[3])
        && (!Descending(t) ==> t[0] <= t[1] <= t[2] <= t[3])
    {
      EntryOf(i);
    }
    forall k | k in MALE_EVAL_TABLE ensures |MALE_EVAL_TABLE[k]| == 4 {
      var i :| 0 <= i < |SUBSCALES| && SUBSCALES[i].id == k;
      EntryOf(i);
    }
  }
}
