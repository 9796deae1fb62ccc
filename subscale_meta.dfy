/**
 * The catalog of the 19 subscales of the 57-item Brief Job Stress
 * Questionnaire: each subscale's id, display label, questionnaire items,
 * domain (A work stressors, B stress reactions, C support) and whether
 * it is scored in reverse.
 */
module SubscaleMeta {

  datatype Domain = A | B | C

  /** `caption` is the source's `label` field (a keyword in Dafny); a missing `reverse` is `false`. */
  datatype SubScale = SubScale(id: string, caption: string, items: seq<int>, domain: Domain, reverse: bool)

  const SUBSCALES: seq<SubScale> := [
    SubScale("A1", "心理的仕事量(量)", [1, 2, 3], A, false),
    SubScale("A2", "心理的仕事量(質)", [4, 5, 6], A, false),
    SubScale("A3", "身体的負担度", [7], A, false),
    SubScale("A4", "対人関係ストレス", [12, 13, 14], A, false),
    SubScale("A5", "職場環境ストレス", [15], A, false),
    SubScale("A6", "仕事のコントロール度★", [8, 9, 10], A, true),
    SubScale("A7", "技能活用度★", [11], A, true),
    SubScale("A8", "仕事適性度★", [16], A, true),
    SubScale("A9", "働きがい★", [17], A, true),
    SubScale("B1", "活気★", [18, 19, 20], B, true),
    SubScale("B2", "イライラ感", [21, 22, 23], B, false),
    SubScale("B3", "疲労感", [24, 25, 26], B, false),
    SubScale("B4", "不安感", [27, 28, 29], B, false),
    SubScale("B5", "抑うつ感", [30, 31, 32, 33, 34, 35], B, false),
    SubScale("B6", "身体愁訴", [36, 37, 38, 39, 40, 41, 42, 43, 44, 45, 46], B, false),
    SubScale("C1", "上司からのサポート★", [47, 48, 49], C, true),
    SubScale("C2", "同僚からのサポート★", [50, 51, 52, 53], C, true),
    SubScale("C3", "家族・友人サポート★", [54, 55], C, true),
    SubScale("C4", "仕事と生活の満足度★", [56, 57], C, true)
  ]

  /** The ids of the reverse-scored subscales. */
  const REVERSE_IDS: set<string> := {"A6", "A7", "A8", "A9", "B1", "C1", "C2", "C3", "C4"}

  /** The item range a domain covers, first and last item inclusive. */
  function DomainFirst(d: Domain): int {
    match d
    case A => 1
    case B => 18
    case C => 47
  }

  function DomainLast(d: Domain): int {
    match d
    case A => 17
    case B => 46
    case C => 57
  }

  /** Does some subscale of the catalog carry this id? */
  predicate IsCatalogId(id: string) {
    exists i :: 0 <= i < |SUBSCALES| && SUBSCALES[i].id == id
  }

  function IdSet(): set<string> {
    set i | 0 <= i < |SUBSCALES| :: SUBSCALES[i].id
  }

  /** Every index of the catalog is one of 0..18; lets a proof go through the entries one by one. */
  lemma CatalogIndex(i: int)
    requires 0 <= i < |SUBSCALES|
    ensures i == 0 || i == 1 || i == 2 || i == 3 || i == 4 || i == 5 || i == 6 || i == 7 || i == 8 || i == 9
         || i == 10 || i == 11 || i == 12 || i == 13 || i == 14 || i == 15 || i == 16 || i == 17 || i == 18
  {
  }

  /** The catalog has 19 entries with pairwise distinct ids. */
  lemma CatalogIdsDistinct()
    ensures |SUBSCALES| == 19
    ensures forall i, j :: 0 <= i < |SUBSCALES| && 0 <= j < |SUBSCALES| && i != j ==> SUBSCALES[i].id != SUBSCALES[j].id
  {
    forall i, j | 0 <= i < |SUBSCALES| && 0 <= j < |SUBSCALES| && i != j
      ensures SUBSCALES[i].id != SUBSCALES[j].id
    {
      var a, b := SUBSCALES[i].id, SUBSCALES[j].id;
      CatalogIndex(i);
      CatalogIndex(j);
      assert a[0] != b[0] || a[1] != b[1];
    }
  }

  lemma IdSetIsCatalog()
    ensures forall id :: id in IdSet() <==> IsCatalogId(id)
  {
  }

  /** The catalog's ids, in catalog order. */
  function CatalogIds(): seq<string> {
    seq(|SUBSCALES|, j requires 0 <= j < |SUBSCALES| => SUBSCALES[j].id)
  }

  predicate Distinct(ids: seq<string>) {
    forall i, j :: 0 <= i < j < |ids| ==> ids[i] != ids[j]
  }

  /** 19 distinct ids, in catalog order, whose set is IdSet(). */
  lemma CatalogIdsSpec()
    ensures |CatalogIds()| == |SUBSCALES| == 19
    ensures forall j :: 0 <= j < |SUBSCALES| ==> CatalogIds()[j] == SUBSCALES[j].id
    ensures Distinct(CatalogIds())
    ensures (set id | id in CatalogIds()) == IdSet()
  {
    CatalogIdsDistinct();
    var ids := CatalogIds();
    forall id | id in IdSet() ensures id in ids {
      var j :| 0 <= j < |SUBSCALES| && SUBSCALES[j].id == id;
      assert ids[j] == id;
    }
  }

  /** The part of CatalogIdsSpec a loop over the ids needs. */
  lemma CatalogIdsKeys()
    ensures Distinct(CatalogIds())
    ensures (set id | id in CatalogIds()) == IdSet()
  {
    CatalogIdsSpec();
  }

  /** A subscale of domain d only uses items of d's range (A: 1-17, B: 18-46, C: 47-57). */
  lemma DomainItemRanges()
    ensures forall i, k :: 0 <= i < |SUBSCALES| && 0 <= k < |SUBSCALES[i].items| ==>
      DomainFirst(SUBSCALES[i].domain) <= SUBSCALES[i].items[k] <= DomainLast(SUBSCALES[i].domain)
  {
    forall i, k | 0 <= i < |SUBSCALES| && 0 <= k < |SUBSCALES[i].items|
      ensures DomainFirst(SUBSCALES[i].domain) <= SUBSCALES[i].items[k] <= DomainLast(SUBSCALES[i].domain)
    {
      CatalogIndex(i);
    }
  }

  /**
   * The subscale that owns item q: A1 1-3, A2 4-6, A3 7, A6 8-10, A7 11, A4 12-14, A5 15, A8 16,
   * A9 17, B1 18-20, B2 21-23, B3 24-26, B4 27-29, B5 30-35, B6 36-46, C1 47-49, C2 50-53,
   * C3 54-55, C4 56-57. An independent statement of the catalog's item layout.
   */
  function OwnerOf(q: int): (i: nat)
    requires 1 <= q <= 57
    ensures i < |SUBSCALES|
  {
    if q <= 3 then 0 else if q <= 6 then 1 else if q == 7 then 2 else if q <= 10 then 5
    else if q == 11 then 6 else if q <= 14 then 3 else if q == 15 then 4 else if q == 16 then 7
    else if q == 17 then 8 else if q <= 20 then 9 else if q <= 23 then 10 else if q <= 26 then 11
    else if q <= 29 then 12 else if q <= 35 then 13 else if q <= 46 then 14 else if q <= 49 then 15
    else if q <= 53 then 16 else if q <= 55 then 17 else 18
  }

  /** Each subscale's items are consecutive, and each item is owned by its subscale. */
  lemma ItemLayout()
    ensures forall i, k :: 0 <= i < |SUBSCALES| && 0 <= k < |SUBSCALES[i].items| ==>
      1 <= SUBSCALES[i].items[k] <= 57 && OwnerOf(SUBSCALES[i].items[k]) == i
      && SUBSCALES[i].items[k] == SUBSCALES[i].items[0] + k
  {
    forall i | 0 <= i < |SUBSCALES|
      ensures forall k :: 0 <= k < |SUBSCALES[i].items| ==>
        1 <= SUBSCALES[i].items[k] <= 57 && OwnerOf(SUBSCALES[i].items[k]) == i
        && SUBSCALES[i].items[k] == SUBSCALES[i].items[0] + k
    {
      if i < 9 {
        ItemLayoutA(i);
      } else if i < 15 {
        ItemLayoutB(i);
      } else {
        ItemLayoutC(i);
      }
    }
  }

  lemma ItemLayoutA(i: int)
    requires 0 <= i < 9
    ensures forall k :: 0 <= k < |SUBSCALES[i].items| ==>
      1 <= SUBSCALES[i].items[k] <= 57 && OwnerOf(SUBSCALES[i].items[k]) == i
      && SUBSCALES[i].items[k] == SUBSCALES[i].items[0] + k
  {
    assert i == 0 || i == 1 || i == 2 || i == 3 || i == 4 || i == 5 || i == 6 || i == 7 || i == 8;
  }

  lemma ItemLayoutB(i: int)
    requires 9 <= i < 15
    ensures forall k :: 0 <= k < |SUBSCALES[i].items| ==>
      1 <= SUBSCALES[i].items[k] <= 57 && OwnerOf(SUBSCALES[i].items[k]) == i
      && SUBSCALES[i].items[k] == SUBSCALES[i].items[0] + k
  {
    assert i == 9 || i == 10 || i == 11 || i == 12 || i == 13 || i == 14;
  }

  lemma ItemLayoutC(i: int)
    requires 15 <= i < 19
    ensures forall k :: 0 <= k < |SUBSCALES[i].items| ==>
      1 <= SUBSCALES[i].items[k] <= 57 && OwnerOf(SUBSCALES[i].items[k]) == i
      && SUBSCALES[i].items[k] == SUBSCALES[i].items[0] + k
  {
    assert i == 15 || i == 16 || i == 17 || i == 18;
  }

  /** Every item 1..57 occurs in the subscale OwnerOf names. */
  lemma OwnerHoldsItem(q: int)
    requires 1 <= q <= 57
    ensures q in SUBSCALES[OwnerOf(q)].items
  {
  }

  /** The item lists partition 1..57: every item occurs in exactly one subscale, at exactly one position. */
  lemma ItemsPartition()
    ensures forall i, k :: 0 <= i < |SUBSCALES| && 0 <= k < |SUBSCALES[i].items| ==> 1 <= SUBSCALES[i].items[k] <= 57
    ensures forall q :: 1 <= q <= 57 ==> q in SUBSCALES[OwnerOf(q)].items
    ensures forall i, k, j, l ::
      (0 <= i < |SUBSCALES| && 0 <= k < |SUBSCALES[i].items| && 0 <= j < |SUBSCALES| && 0 <= l < |SUBSCALES[j].items|
       && SUBSCALES[i].items[k] == SUBSCALES[j].items[l]) ==> i == j && k == l
  {
    ItemLayout();
    forall q | 1 <= q <= 57 ensures q in SUBSCALES[OwnerOf(q)].items {
      OwnerHoldsItem(q);
    }
  }

  /** Reverse scoring is used exactly for A6-A9, B1 and C1-C4, and exactly those captions end in ★. */
  lemma ReverseScales()
    ensures forall i :: 0 <= i < |SUBSCALES| ==> (SUBSCALES[i].reverse <==> SUBSCALES[i].id in REVERSE_IDS)
    ensures forall i :: 0 <= i < |SUBSCALES| ==>
      (SUBSCALES[i].reverse <==> (SUBSCALES[i].caption != [] && SUBSCALES[i].caption[|SUBSCALES[i].caption| - 1] == '★'))
  {
    forall i | 0 <= i < |SUBSCALES|
      ensures SUBSCALES[i].reverse <==> SUBSCALES[i].id in REVERSE_IDS
      ensures SUBSCALES[i].reverse <==> (SUBSCALES[i].caption != [] && SUBSCALES[i].caption[|SUBSCALES[i].caption| - 1] == '★')
    {
      CatalogIndex(i);
    }
  }
}
