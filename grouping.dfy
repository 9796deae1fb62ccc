/**
 * The grouping keys and the categories each key splits a population into.
 * A category has a key, a display caption and a matching rule.
 */
module Grouping {
  import opened Wrappers
  import opened Users

  datatype GroupKey = DepartmentKey | YearsKey | GenderKey | LocationKey | NoneKey

  /** The matching rules the categories use. */
  datatype Matcher =
    | DepartmentIs(department: string)
    | LocationIs(location: string)
    | GenderIs(gender: string)
    | Everyone
    | YearsExactly(years: int)
    | YearsBetween(lo: int, hi: int)
    | YearsAtLeast(least: int)

  datatype Category = Category(key: string, caption: string, matcher: Matcher)

  /** The match predicate; a missing yearsOfService fails every comparison, as undefined does. */
  predicate Matches(c: Category, u: User) {
    match c.matcher
    case DepartmentIs(d) => u.department == d
    case LocationIs(l) => u.location == l
    case GenderIs(g) => u.gender == g
    case Everyone => true
    case YearsExactly(y) => u.yearsOfService == Some(y)
    case YearsBetween(lo, hi) => u.yearsOfService.Some? && lo <= u.yearsOfService.value <= hi
    case YearsAtLeast(lo) => u.yearsOfService.Some? && u.yearsOfService.value >= lo
  }

  /** getCategories */
  function GetCategories(k: GroupKey): (cs: seq<Category>)
    ensures |cs| >= 1
    ensures forall i, j :: 0 <= i < j < |cs| ==> cs[i].key != cs[j].key
  {
    match k
    case DepartmentKey => [Category("営業部", "営業部", DepartmentIs("営業部")), Category("技術部", "技術部", DepartmentIs("技術部"))]
    case LocationKey => [Category("東京", "東京", LocationIs("東京")), Category("新潟", "新潟", LocationIs("新潟"))]
    case GenderKey => [Category("male", "男性", GenderIs("male")), Category("female", "女性", GenderIs("female"))]
    case NoneKey => [Category("all", "全体", Everyone)]
    case YearsKey => [Category("1", "～1年", YearsExactly(1)), Category("2-5", "2～5年", YearsBetween(2, 5)), Category("6+", "6年～", YearsAtLeast(6))]
  }

  /** How many of the categories a user matches. */
  function MatchCount(cs: seq<Category>, u: User): nat {
    if cs == [] then 0 else (if Matches(cs[0], u) then 1 else 0) + MatchCount(cs[1..], u)
  }

  /** Array.prototype.find: the index of the first category the user matches. */
  function FindCategory(cs: seq<Category>, u: User): (r: Option<nat>)
    ensures r.Some? ==> r.value < |cs| && Matches(cs[r.value], u) && forall j :: 0 <= j < r.value ==> !Matches(cs[j], u)
    ensures r.None? ==> forall j :: 0 <= j < |cs| ==> !Matches(cs[j], u)
  {
    if cs == [] then None
    else if Matches(cs[0], u) then Some(0)
    else match FindCategory(cs[1..], u)
      case None => None
      case Some(k) => Some(k + 1)
  }

  /** A user matching exactly one category is found at that category. */
  lemma {:induction false} FindUnique(cs: seq<Category>, u: User, i: nat)
    requires i < |cs| && Matches(cs[i], u) && MatchCount(cs, u) == 1
    ensures FindCategory(cs, u) == Some(i)
  {
    if i > 0 {
      if Matches(cs[0], u) {
        MatchCountPositive(cs[1..], u, i - 1);
        assert false;
      }
      FindUnique(cs[1..], u, i - 1);
    }
  }

  lemma {:induction false} MatchCountPositive(cs: seq<Category>, u: User, i: nat)
    requires i < |cs| && Matches(cs[i], u)
    ensures MatchCount(cs, u) >= 1
  {
    if i > 0 {
      MatchCountPositive(cs[1..], u, i - 1);
    }
  }

  /** 'none' is one category that every user matches. */
  lemma NoneMatchesEveryone(u: User)
    ensures |GetCategories(NoneKey)| == 1 && Matches(GetCategories(NoneKey)[0], u)
  {
  }

  /**
   * The year buckets never overlap: a user whose yearsOfService is at least 1
   * matches exactly one of them, anyone else matches none.
   */
  lemma YearsBuckets(u: User)
    ensures MatchCount(GetCategories(YearsKey), u) == (if u.yearsOfService.Some? && u.yearsOfService.value >= 1 then 1 else 0)
  {
    var cs := GetCategories(YearsKey);
    var c1 := cs[1..];
    var c2 := c1[1..];
    assert c2[1..] == [];
    assert MatchCount(c2, u) == (if Matches(cs[2], u) then 1 else 0);
    assert MatchCount(c1, u) == (if Matches(cs[1], u) then 1 else 0) + MatchCount(c2, u);
  }

  /**
   * Department, location and gender give two categories each, and category i
   * matches exactly the users whose field equals its key; a user with another
   * value matches none.
   */
  lemma EqualityCategories(k: GroupKey, u: User)
    requires k == DepartmentKey || k == LocationKey || k == GenderKey
    ensures var cs := GetCategories(k);
      var field := if k == DepartmentKey then u.department else if k == LocationKey then u.location else u.gender;
      |cs| == 2
      && (forall i :: 0 <= i < 2 ==> (Matches(cs[i], u) <==> field == cs[i].key))
      && MatchCount(cs, u) == (if field == cs[0].key || field == cs[1].key then 1 else 0)
  {
    var cs := GetCategories(k);
    var c1 := cs[1..];
    assert c1[1..] == [];
    assert MatchCount(c1, u) == (if Matches(cs[1], u) then 1 else 0);
  }
}
