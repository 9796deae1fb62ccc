/**
 * The figures ClusterAICommentGenerator.tsx hands to the comment request for
 * a group of users: the rounded and one-decimal means of the domain totals,
 * the high-stress test on the rounded means, the subscale means kept for
 * the request (adverse ones only), and the department, gender and location
 * shares in first-seen order with the mean years of service.
 */
module ClusterComment {
  import opened Wrappers
  import opened Rounding
  import opened JsString
  import opened SubscaleMeta
  import opened DomainScoring
  import opened HighStress
  import opened SubscaleScoring
  import opened Users
  import opened SubscaleAggregate
  import opened Dashboard

  // ---------------------------------------------------------------- domain means

  /** The users' domain totals, summed component by component. */
  function DomainTotals(users: seq<User>): DomainScores {
    if users == [] then DomainScores(0, 0, 0)
    else
      var t := DomainTotals(users[..|users| - 1]);
      var d := DomainScoresOf(users[|users| - 1].responses);
      DomainScores(t.A + d.A, t.B + d.B, t.C + d.C)
  }

  lemma DomainTotalsStep(users: seq<User>, i: nat)
    requires i < |users|
    ensures var t, d := DomainTotals(users[..i]), DomainScoresOf(users[i].responses);
      DomainTotals(users[..i + 1]) == DomainScores(t.A + d.A, t.B + d.B, t.C + d.C)
  {
    assert users[..i + 1][..i] == users[..i];
  }

  /** The accumulation of sumA, sumB and sumC. */
  method SumDomains(users: seq<User>) returns (t: DomainScores)
    ensures t == DomainTotals(users)
  {
    var sumA, sumB, sumC := 0, 0, 0;
    for i := 0 to |users|
      invariant DomainScores(sumA, sumB, sumC) == DomainTotals(users[..i])
    {
      var dom := CalculateScore(users[i].responses);
      DomainTotalsStep(users, i);
      sumA, sumB, sumC := sumA + dom.A, sumB + dom.B, sumC + dom.C;
    }
    assert users[..|users|] == users;
    t := DomainScores(sumA, sumB, sumC);
  }

  /** n users total at most n times the domain maxima 68, 116 and 44, and never below 0. */
  lemma {:induction false} DomainTotalsBounds(users: seq<User>)
    ensures var t, n := DomainTotals(users), |users|;
      0 <= t.A <= 68 * n && 0 <= t.B <= 116 * n && 0 <= t.C <= 44 * n
  {
    if users != [] {
      DomainTotalsBounds(users[..|users| - 1]);
      DomainBounds(users[|users| - 1].responses);
    }
  }

  /** Users who all share the domain scores d total n d. */
  lemma {:induction false} UniformTotals(users: seq<User>, d: DomainScores)
    requires forall i :: 0 <= i < |users| ==> DomainScoresOf(users[i].responses) == d
    ensures DomainTotals(users) == DomainScores(|users| * d.A, |users| * d.B, |users| * d.C)
  {
    if users != [] {
      var init := users[..|users| - 1];
      UniformTotals(init, d);
      MulSucc(|init|, d.A);
      MulSucc(|init|, d.B);
      MulSucc(|init|, d.C);
    }
  }

  // ---------------------------------------------------------------- subscale means

  /** An entry of avgSubs: label without ★, reverse flag, and the means in tenths. */
  datatype AvgSub = AvgSub(caption: string, reverse: bool, raw: int, eval: int)

  /** The avgSubs entry of scale s for a non-empty group. */
  function AvgSubOf(users: seq<User>, s: SubScale): AvgSub
    requires AllScorable(users) && users != []
  {
    AvgSub(StripStar(s.caption), s.reverse, Mean(users, s.id).raw, Mean(users, s.id).eval)
  }

  /** The prompt filter: a reverse subscale at 2.5 or below, a normal one at 3.5 or above. */
  predicate Kept(v: AvgSub) {
    (v.reverse && v.eval <= 25) || (!v.reverse && v.eval >= 35)
  }

  /**
   * For a single user the mean is the user's own rating, so a subscale is
   * kept exactly when a reverse one is rated 2 or less, or a normal one 4
   * or more.
   */
  lemma SingleUserKept(u: User, i: nat)
    requires Scorable(u) && i < |SUBSCALES|
    ensures Kept(AvgSubOf([u], SUBSCALES[i])) <==>
      var e := EvalOr0(UserScores(u), SUBSCALES[i].id);
      (SUBSCALES[i].reverse && e <= 2) || (!SUBSCALES[i].reverse && e >= 4)
  {
    var id := SUBSCALES[i].id;
    var col := EvalColumn([u], id);
    assert [u][..0] == [];
    assert col == [EvalOr0(UserScores(u), id)];
    assert Sum(col) == EvalOr0(UserScores(u), id);
    RoundDivExact(Sum(col), 1);
    assert Mean([u], id).eval == RoundDiv(10 * Sum(col), 1);
  }

  /** The avgSubs pass: each scale's entry from its means, over any scales with distinct ids. */
  method AverageSubs(scales: seq<SubScale>, means: map<string, SubScore>) returns (avgSubs: map<string, AvgSub>)
    requires DistinctIds(scales)
    requires forall j :: 0 <= j < |scales| ==> scales[j].id in means
    ensures avgSubs.Keys == set j | 0 <= j < |scales| :: scales[j].id
    ensures forall j :: 0 <= j < |scales| ==>
      avgSubs[scales[j].id] == AvgSub(StripStar(scales[j].caption), scales[j].reverse, means[scales[j].id].raw, means[scales[j].id].eval)
  {
    avgSubs := map[];
    for k := 0 to |scales|
      invariant avgSubs.Keys == set j | 0 <= j < k :: scales[j].id
      invariant forall j :: 0 <= j < k ==>
        avgSubs[scales[j].id] == AvgSub(StripStar(scales[j].caption), scales[j].reverse, means[scales[j].id].raw, means[scales[j].id].eval)
    {
      var s := scales[k];
      avgSubs := avgSubs[s.id := AvgSub(StripStar(s.caption), s.reverse, means[s.id].raw, means[s.id].eval)];
    }
  }

  /** The filter pass: the entries that pass Kept, unchanged. */
  method FilterSubs(ids: seq<string>, avgSubs: map<string, AvgSub>) returns (filtered: map<string, AvgSub>)
    requires forall j :: 0 <= j < |ids| ==> ids[j] in avgSubs
    ensures filtered.Keys == set j | 0 <= j < |ids| && Kept(avgSubs[ids[j]]) :: ids[j]
    ensures forall id :: id in filtered ==> filtered[id] == avgSubs[id]
  {
    filtered := map[];
    for k := 0 to |ids|
      invariant filtered.Keys == set j | 0 <= j < k && Kept(avgSubs[ids[j]]) :: ids[j]
      invariant forall id :: id in filtered ==> filtered[id] == avgSubs[id]
    {
      var v := avgSubs[ids[k]];
      if (v.reverse && v.eval <= 25) || (!v.reverse && v.eval >= 35) {
        filtered := filtered[ids[k] := v];
      }
    }
  }

  // ---------------------------------------------------------------- shares

  /** How often k occurs in xs. */
  function Count(xs: seq<string>, k: string): nat {
    if xs == [] then 0 else Count(xs[..|xs| - 1], k) + (if xs[|xs| - 1] == k then 1 else 0)
  }

  /** The distinct values of xs in the order they are first seen: a Map's key order. */
  function Dedup(xs: seq<string>): seq<string> {
    if xs == [] then []
    else
      var init := xs[..|xs| - 1];
      Dedup(init) + (if xs[|xs| - 1] in init then [] else [xs[|xs| - 1]])
  }

  lemma {:induction false} DedupMembers(xs: seq<string>)
    ensures forall k :: k in Dedup(xs) <==> k in xs
    ensures Distinct(Dedup(xs))
  {
    if xs != [] {
      var init := xs[..|xs| - 1];
      DedupMembers(init);
      assert xs == init + [xs[|xs| - 1]];
    }
  }

  lemma {:induction false} CountAbsent(xs: seq<string>, k: string)
    requires k !in xs
    ensures Count(xs, k) == 0
  {
    if xs != [] {
      CountAbsent(xs[..|xs| - 1], k);
    }
  }

  lemma {:induction false} CountOnce(xs: seq<string>, k: string)
    requires Distinct(xs) && k in xs
    ensures Count(xs, k) == 1
  {
    var init := xs[..|xs| - 1];
    if xs[|xs| - 1] == k {
      assert k !in init;
      CountAbsent(init, k);
    } else {
      assert xs == init + [xs[|xs| - 1]];
      CountOnce(init, k);
    }
  }

  lemma CountSnoc(xs: seq<string>, x: string, k: string)
    ensures Count(xs + [x], k) == Count(xs, k) + (if x == k then 1 else 0)
  {
    assert (xs + [x])[..|xs|] == xs;
  }

  /** The counts of keys in xs, added up. */
  function SumCounts(keys: seq<string>, xs: seq<string>): int {
    if keys == [] then 0 else SumCounts(keys[..|keys| - 1], xs) + Count(xs, keys[|keys| - 1])
  }

  lemma {:induction false} SumCountsLast(keys: seq<string>, xs: seq<string>)
    requires xs != []
    ensures SumCounts(keys, xs) == SumCounts(keys, xs[..|xs| - 1]) + Count(keys, xs[|xs| - 1])
  {
    if keys != [] {
      SumCountsLast(keys[..|keys| - 1], xs);
    }
  }

  /** Every user is counted exactly once: the counts add up to the group size. */
  lemma {:induction false} CountsAddUp(xs: seq<string>)
    ensures SumCounts(Dedup(xs), xs) == |xs|
  {
    if xs != [] {
      var init, x := xs[..|xs| - 1], xs[|xs| - 1];
      var d := Dedup(init);
      CountsAddUp(init);
      DedupMembers(init);
      SumCountsLast(Dedup(xs), xs);
      if x in init {
        assert Dedup(xs) == d + [] == d;
        CountOnce(d, x);
      } else {
        assert Dedup(xs) == d + [x];
        assert (d + [x])[..|d|] == d;
        CountAbsent(init, x);
        CountAbsent(d, x);
      }
    }
  }

  datatype Tally = Tally(key: string, count: nat)

  /** The counter Map as an independent description: first-seen keys with their counts. */
  function Tallies(xs: seq<string>): seq<Tally> {
    seq(|Dedup(xs)|, j requires 0 <= j < |Dedup(xs)| => Tally(Dedup(xs)[j], Count(xs, Dedup(xs)[j])))
  }

  /** Map.get on the counter list: the position of key, if any. */
  function KeyIndex(entries: seq<Tally>, key: string): (r: Option<nat>)
    ensures r.Some? ==> r.value < |entries| && entries[r.value].key == key
    ensures r.None? ==> forall j :: 0 <= j < |entries| ==> entries[j].key != key
  {
    if entries == [] then None
    else match KeyIndex(entries[..|entries| - 1], key)
      case Some(p) => Some(p)
      case None => if entries[|entries| - 1].key == key then Some(|entries| - 1) else None
  }

  /** The counters hold exactly the tallies of xs[..i]. */
  predicate TalliesOf(xs: seq<string>, i: nat, entries: seq<Tally>)
    requires i <= |xs|
  {
    |entries| == |Dedup(xs[..i])|
      && forall j :: 0 <= j < |entries| ==> entries[j] == Tally(Dedup(xs[..i])[j], Count(xs[..i], Dedup(xs[..i])[j]))
  }

  /** m.set(k, (m.get(k) ?? 0) + 1) for k = xs[i]. */
  method Bump(xs: seq<string>, i: nat, entries: seq<Tally>) returns (entries': seq<Tally>)
    requires i < |xs| && TalliesOf(xs, i, entries)
    ensures TalliesOf(xs, i + 1, entries')
  {
    var init, x := xs[..i], xs[i];
    assert xs[..i + 1] == init + [x];
    assert xs[..i + 1][..i] == init;
    DedupMembers(init);
    forall k ensures Count(xs[..i + 1], k) == Count(init, k) + (if x == k then 1 else 0) {
      CountSnoc(init, x, k);
    }
    match KeyIndex(entries, x)
    case Some(p) =>
      assert x in Dedup(init);
      entries' := entries[p := Tally(x, entries[p].count + 1)];
      forall j | 0 <= j < |entries'| && j != p ensures Dedup(init)[j] != x {
        assert Dedup(init)[p] == x;
      }
    case None =>
      assert x !in Dedup(init);
      CountAbsent(init, x);
      entries' := entries + [Tally(x, 1)];
  }

  /** The three counter loops, for one field's values. */
  method CountKeys(xs: seq<string>) returns (entries: seq<Tally>)
    ensures entries == Tallies(xs)
  {
    entries := [];
    for i := 0 to |xs|
      invariant TalliesOf(xs, i, entries)
    {
      entries := Bump(xs, i, entries);
    }
    assert xs[..|xs|] == xs;
  }

  /** The tallies list each value of xs once, in first-seen order, and their counts add up to |xs|. */
  lemma TalliesSpec(xs: seq<string>)
    ensures forall k :: (exists j :: 0 <= j < |Tallies(xs)| && Tallies(xs)[j].key == k) <==> k in xs
    ensures forall j, j' :: 0 <= j < j' < |Tallies(xs)| ==> Tallies(xs)[j].key != Tallies(xs)[j'].key
    ensures forall j :: 0 <= j < |Tallies(xs)| ==> 1 <= Tallies(xs)[j].count <= |xs|
    ensures SumCounts(Dedup(xs), xs) == |xs|
  {
    DedupMembers(xs);
    CountsAddUp(xs);
    var d := Dedup(xs);
    forall k ensures (exists j :: 0 <= j < |Tallies(xs)| && Tallies(xs)[j].key == k) <==> k in xs {
      if k in xs {
        var j :| 0 <= j < |d| && d[j] == k;
        assert Tallies(xs)[j].key == k;
      }
    }
    forall j | 0 <= j < |d| ensures 1 <= Count(xs, d[j]) <= |xs| {
      CountBounds(xs, d[j]);
    }
  }

  lemma {:induction false} CountBounds(xs: seq<string>, k: string)
    ensures Count(xs, k) <= |xs|
    ensures k in xs ==> Count(xs, k) >= 1
  {
    if xs != [] {
      var init := xs[..|xs| - 1];
      CountBounds(init, k);
      assert xs == init + [xs[|xs| - 1]];
    }
  }

  /** `${k}${percent(v)}%`, joined by " / ". */
  function SummaryText(entries: seq<Tally>, n: int): string
    requires n > 0
  {
    Join(seq(|entries|, j requires 0 <= j < |entries| => entries[j].key + IntText(Percent(entries[j].count, n)) + "%"), " / ")
  }

  lemma {:induction false} DedupOfConstant(xs: seq<string>, x: string)
    requires xs != [] && forall i :: 0 <= i < |xs| ==> xs[i] == x
    ensures Dedup(xs) == [x]
  {
    var init := xs[..|xs| - 1];
    if init == [] {
      assert Dedup(init) == [];
    } else {
      DedupOfConstant(init, x);
      assert init[0] == x;
    }
  }

  /** A group in which every user has the same value shows that value at 100%. */
  lemma {:induction false} UniformShares(xs: seq<string>, x: string)
    requires xs != [] && forall i :: 0 <= i < |xs| ==> xs[i] == x
    ensures Tallies(xs) == [Tally(x, |xs|)]
    ensures SummaryText(Tallies(xs), |xs|) == x + "100%"
  {
    DedupOfConstant(xs, x);
    CountsAddUp(xs);
    assert SumCounts([x], xs) == Count(xs, x) by {
      assert [x][..0] == [];
    }
    RoundDivExact(100, |xs|);
    assert NatText(100) == "100";
  }

  // ---------------------------------------------------------------- years

  /** users.reduce((acc, u) => acc + u.yearsOfService, 0): a missing value makes the sum NaN (None). */
  function YearsTotal(users: seq<User>): Option<int> {
    if users == [] then Some(0)
    else match (YearsTotal(users[..|users| - 1]), users[|users| - 1].yearsOfService)
      case (Some(t), Some(y)) => Some(t + y)
      case _ => None
  }

  /** The sum is a number exactly when every user has a yearsOfService. */
  lemma {:induction false} YearsTotalDefined(users: seq<User>)
    ensures YearsTotal(users).Some? <==> forall i :: 0 <= i < |users| ==> users[i].yearsOfService.Some?
  {
    if users != [] {
      YearsTotalDefined(users[..|users| - 1]);
    }
  }

  function MeanYears(users: seq<User>): Option<int>
    requires users != []
  {
    match YearsTotal(users)
    case Some(t) => Some(RoundDiv(t, |users|))
    case None => None
  }

  // ---------------------------------------------------------------- the whole

  datatype ClusterInfo = ClusterInfo(department: string, gender: string, location: string, yearsOfService: Option<int>)

  /**
   * The memo's result. The one-decimal means are in tenths; intA, intB, intC
   * and the cluster info are undefined (None) for an empty group.
   */
  datatype CommentInput = CommentInput(
    avgA: int, avgB: int, avgC: int,
    intA: Option<int>, intB: Option<int>, intC: Option<int>,
    highStress: bool,
    filtered: map<string, AvgSub>,
    info: Option<ClusterInfo>)

  function Departments(users: seq<User>): seq<string> {
    seq(|users|, i requires 0 <= i < |users| => users[i].department)
  }

  function Genders(users: seq<User>): seq<string> {
    seq(|users|, i requires 0 <= i < |users| => users[i].gender)
  }

  function Locations(users: seq<User>): seq<string> {
    seq(|users|, i requires 0 <= i < |users| => users[i].location)
  }

  function InfoOf(users: seq<User>): ClusterInfo
    requires users != []
  {
    ClusterInfo(
      SummaryText(Tallies(Departments(users)), |users|),
      SummaryText(Tallies(Genders(users)), |users|),
      SummaryText(Tallies(Locations(users)), |users|),
      MeanYears(users))
  }

  /** The ids of the catalog subscales that pass the filter. */
  function KeptIds(users: seq<User>): set<string>
    requires AllScorable(users) && users != []
  {
    set i | 0 <= i < |SUBSCALES| && Kept(AvgSubOf(users, SUBSCALES[i])) :: SUBSCALES[i].id
  }

  /** The subscale part, for a non-empty group: means, avgSubs, then the filter. */
  method FilteredSubs(users: seq<User>) returns (filtered: map<string, AvgSub>)
    requires AllScorable(users) && users != []
    ensures filtered.Keys == KeptIds(users)
    ensures forall i :: 0 <= i < |SUBSCALES| && SUBSCALES[i].id in filtered ==> filtered[SUBSCALES[i].id] == AvgSubOf(users, SUBSCALES[i])
  {
    var means := AggregateScores(users);
    CatalogIdsSpec();
    var avgSubs := AverageSubs(SUBSCALES, means);
    filtered := FilterSubs(CatalogIds(), avgSubs);
    forall i | 0 <= i < |SUBSCALES| ensures avgSubs[SUBSCALES[i].id] == AvgSubOf(users, SUBSCALES[i]) {
      assert SUBSCALES[i].id in IdSet();
    }
  }

  /** The counters and the summary strings, for a non-empty group. */
  method ClusterInfoOf(users: seq<User>) returns (info: ClusterInfo)
    requires users != []
    ensures info == InfoOf(users)
  {
    var departments := CountKeys(Departments(users));
    var genders := CountKeys(Genders(users));
    var locations := CountKeys(Locations(users));
    var n := |users|;
    info := ClusterInfo(SummaryText(departments, n), SummaryText(genders, n), SummaryText(locations, n), MeanYears(users));
  }

  /** The useMemo of ClusterAICommentGenerator. */
  method CommentInputOf(users: seq<User>) returns (c: CommentInput)
    requires AllScorable(users)
    ensures users == [] ==> c == CommentInput(0, 0, 0, None, None, None, false, map[], None)
    ensures users != [] ==>
      var t, n := DomainTotals(users), |users|;
      c.intA == Some(RoundDiv(t.A, n)) && c.intB == Some(RoundDiv(t.B, n)) && c.intC == Some(RoundDiv(t.C, n))
      && c.avgA == RoundTenths(t.A, n) && c.avgB == RoundTenths(t.B, n) && c.avgC == RoundTenths(t.C, n)
    ensures users != [] ==> c.highStress == IsHighStress(DomainScores(c.intA.value, c.intB.value, c.intC.value))
    ensures users != [] ==> c.filtered.Keys == KeptIds(users)
    ensures users != [] ==> forall i :: 0 <= i < |SUBSCALES| && SUBSCALES[i].id in c.filtered ==>
      c.filtered[SUBSCALES[i].id] == AvgSubOf(users, SUBSCALES[i])
    ensures users != [] ==> c.info == Some(InfoOf(users))
  {
    if |users| == 0 {
      return CommentInput(0, 0, 0, None, None, None, false, map[], None);
    }
    var t := SumDomains(users);
    var n := |users|;
    var intA, intB, intC := RoundDiv(t.A, n), RoundDiv(t.B, n), RoundDiv(t.C, n);
    var avgA, avgB, avgC := RoundTenths(t.A, n), RoundTenths(t.B, n), RoundTenths(t.C, n);
    var filtered := FilteredSubs(users);
    var highStress := IsHighStress(DomainScores(intA, intB, intC));
    var info := ClusterInfoOf(users);
    c := CommentInput(avgA, avgB, avgC, Some(intA), Some(intB), Some(intC), highStress, filtered, Some(info));
  }

  /** scores.total: intA + intB + intC, NaN (None) when they are undefined. */
  function Total(c: CommentInput): Option<int> {
    if c.intA.Some? && c.intB.Some? && c.intC.Some? then Some(c.intA.value + c.intB.value + c.intC.value) else None
  }

  /**
   * For a non-empty group the rounded means lie in the domain ranges
   * (A 0..68, B 0..116, C 0..44), the one-decimal means in ten times those
   * ranges, and the total in 0..228.
   */
  lemma MeansBounds(users: seq<User>)
    requires users != []
    ensures var t, n := DomainTotals(users), |users|;
      0 <= RoundDiv(t.A, n) <= 68 && 0 <= RoundDiv(t.B, n) <= 116 && 0 <= RoundDiv(t.C, n) <= 44
      && 0 <= RoundTenths(t.A, n) <= 680 && 0 <= RoundTenths(t.B, n) <= 1160 && 0 <= RoundTenths(t.C, n) <= 440
  {
    var t, n := DomainTotals(users), |users|;
    DomainTotalsBounds(users);
    RoundDivBounds(t.A, n, 0, 68);
    RoundDivBounds(t.B, n, 0, 116);
    RoundDivBounds(t.C, n, 0, 44);
    RoundDivBounds(10 * t.A, n, 0, 680);
    RoundDivBounds(10 * t.B, n, 0, 1160);
    RoundDivBounds(10 * t.C, n, 0, 440);
  }

  /** With users the total is defined and in 0..228; without users it is NaN. */
  lemma TotalSpec(users: seq<User>, c: CommentInput)
    requires AllScorable(users)
    requires users == [] ==> c == CommentInput(0, 0, 0, None, None, None, false, map[], None)
    requires users != [] ==>
      var t, n := DomainTotals(users), |users|;
      c.intA == Some(RoundDiv(t.A, n)) && c.intB == Some(RoundDiv(t.B, n)) && c.intC == Some(RoundDiv(t.C, n))
    ensures Total(c).None? <==> users == []
    ensures users != [] ==> 0 <= Total(c).value <= 228
  {
    if users != [] {
      MeansBounds(users);
    }
  }

  /**
   * A group whose users all have the domain scores d has d as its rounded
   * means, and so the high-stress verdict of any one of them.
   */
  lemma UniformGroup(users: seq<User>, d: DomainScores)
    requires users != [] && forall i :: 0 <= i < |users| ==> DomainScoresOf(users[i].responses) == d
    ensures var t, n := DomainTotals(users), |users|;
      RoundDiv(t.A, n) == d.A && RoundDiv(t.B, n) == d.B && RoundDiv(t.C, n) == d.C
    ensures var t, n := DomainTotals(users), |users|;
      IsHighStress(DomainScores(RoundDiv(t.A, n), RoundDiv(t.B, n), RoundDiv(t.C, n))) == IsHighStress(d)
  {
    var n := |users|;
    UniformTotals(users, d);
    RoundDivOfMultiple(n, d.A);
    RoundDivOfMultiple(n, d.B);
    RoundDivOfMultiple(n, d.C);
  }

  /** The mean years are defined exactly when every user has a yearsOfService. */
  lemma MeanYearsSpec(users: seq<User>)
    requires users != []
    ensures MeanYears(users).Some? <==> forall i :: 0 <= i < |users| ==> users[i].yearsOfService.Some?
    ensures MeanYears(users).Some? ==>
      |users| * (2 * MeanYears(users).value - 1) <= 2 * YearsTotal(users).value < |users| * (2 * MeanYears(users).value + 1)
  {
    YearsTotalDefined(users);
    if YearsTotal(users).Some? {
      RoundDivSpec(YearsTotal(users).value, |users|);
    }
  }
}
