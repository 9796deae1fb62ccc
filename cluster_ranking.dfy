/**
 * The scan for high-stress clusters in CrossStressTable.tsx: for every pair
 * i < j of the keys department, years, gender and location, the cross table
 * with key i on the columns and key j on the rows is built and every
 * non-empty cell becomes a candidate; candidates are ranked by average, then
 * size, both descending, and the first three are shown.
 */
module ClusterRanking {
  import opened Users
  import opened Grouping
  import opened StressMeasure
  import opened CrossMatrix
  import opened StableSort

  /** A candidate cluster; avg is in tenths. */
  datatype ClusterEntry = ClusterEntry(
    avg: int,
    size: nat,
    xKey: GroupKey,
    yKey: GroupKey,
    xLabel: string,
    yLabel: string,
    members: seq<User>)

  /** An (x key, y key) pair: x on the columns, y on the rows. */
  type KeyPair = (GroupKey, GroupKey)

  const CANDIDATE_KEYS: seq<GroupKey> := [DepartmentKey, YearsKey, GenderKey, LocationKey]

  /** The pairs (ks[i], ks[m]) for i < m < j, in loop order. */
  function RowPairs(ks: seq<GroupKey>, i: nat, j: nat): seq<KeyPair>
    requires i < |ks| && j <= |ks|
  {
    if j <= i + 1 then [] else RowPairs(ks, i, j - 1) + [(ks[i], ks[j - 1])]
  }

  /** The pairs the two loops visit before the outer loop reaches i. */
  function PairsUpTo(ks: seq<GroupKey>, i: nat): seq<KeyPair>
    requires i <= |ks|
  {
    if i == 0 then [] else PairsUpTo(ks, i - 1) + RowPairs(ks, i - 1, |ks|)
  }

  lemma {:induction false} RowPairsMembers(ks: seq<GroupKey>, i: nat, j: nat)
    requires i < |ks| && j <= |ks|
    ensures forall p :: p in RowPairs(ks, i, j) <==> exists m :: i < m < j && p == (ks[i], ks[m])
  {
    if j > i + 1 {
      RowPairsMembers(ks, i, j - 1);
    }
  }

  lemma {:induction false} PairsUpToMembers(ks: seq<GroupKey>, i: nat)
    requires i <= |ks|
    ensures forall p :: p in PairsUpTo(ks, i) <==> exists a, b :: 0 <= a < i && a < b < |ks| && p == (ks[a], ks[b])
  {
    if i > 0 {
      PairsUpToMembers(ks, i - 1);
      RowPairsMembers(ks, i - 1, |ks|);
    }
  }

  /** The two loops visit exactly the six unordered pairs i < j of the four keys, once each. */
  lemma CandidatePairs()
    ensures PairsUpTo(CANDIDATE_KEYS, 4) == [
      (DepartmentKey, YearsKey), (DepartmentKey, GenderKey), (DepartmentKey, LocationKey),
      (YearsKey, GenderKey), (YearsKey, LocationKey), (GenderKey, LocationKey)]
    ensures forall p :: p in PairsUpTo(CANDIDATE_KEYS, 4) <==>
      exists a, b :: 0 <= a < b < 4 && p == (CANDIDATE_KEYS[a], CANDIDATE_KEYS[b])
  {
    PairsUpToMembers(CANDIDATE_KEYS, 4);
  }

  /** A cell with members m: one entry when it is non-empty, none otherwise. */
  function CellEntry(x: GroupKey, y: GroupKey, xLabel: string, yLabel: string, m: seq<User>): seq<ClusterEntry> {
    if m == [] then [] else [ClusterEntry(AverageTenths(StressList(m)), |m|, x, y, xLabel, yLabel, m)]
  }

  /** The entries of cells (r, 0) .. (r, nc - 1) of the cross table of rows and cols. */
  function RowEntries(users: seq<User>, x: GroupKey, y: GroupKey, rows: seq<Category>, cols: seq<Category>, r: nat, nc: nat): seq<ClusterEntry>
    requires r < |rows| && nc <= |cols|
  {
    if nc == 0 then [] else
      var m := CellMembers(users, rows, cols, r, nc - 1);
      RowEntries(users, x, y, rows, cols, r, nc - 1) + CellEntry(x, y, cols[nc - 1].caption, rows[r].caption, m)
  }

  /** The entries of rows 0 .. nr - 1. */
  function GridEntries(users: seq<User>, x: GroupKey, y: GroupKey, rows: seq<Category>, cols: seq<Category>, nr: nat): seq<ClusterEntry>
    requires nr <= |rows|
  {
    if nr == 0 then [] else GridEntries(users, x, y, rows, cols, nr - 1) + RowEntries(users, x, y, rows, cols, nr - 1, |cols|)
  }

  /** All entries of the cross table with x on the columns and y on the rows. */
  function PairEntries(users: seq<User>, x: GroupKey, y: GroupKey): seq<ClusterEntry> {
    var rows := GetCategories(y);
    GridEntries(users, x, y, rows, GetCategories(x), |rows|)
  }

  /** f applied to each element of ps, concatenated in order. */
  function Flatten<P, E>(f: P -> seq<E>, ps: seq<P>): seq<E> {
    if ps == [] then [] else Flatten(f, ps[..|ps| - 1]) + f(ps[|ps| - 1])
  }

  lemma {:induction false} FlattenAppend<P, E>(f: P -> seq<E>, a: seq<P>, b: seq<P>)
    ensures Flatten(f, a + b) == Flatten(f, a) + Flatten(f, b)
    decreases |b|
  {
    if b == [] {
      assert a + b == a;
    } else {
      var b' := b[..|b| - 1];
      assert (a + b)[..|a + b| - 1] == a + b';
      FlattenAppend(f, a, b');
    }
  }

  lemma FlattenSnoc<P, E>(f: P -> seq<E>, ps: seq<P>, p: P)
    ensures Flatten(f, ps + [p]) == Flatten(f, ps) + f(p)
  {
    assert (ps + [p])[..|ps|] == ps;
  }

  lemma {:induction false} FlattenMembers<P, E>(f: P -> seq<E>, ps: seq<P>, e: E)
    requires e in Flatten(f, ps)
    ensures exists k :: 0 <= k < |ps| && e in f(ps[k])
  {
    var init := ps[..|ps| - 1];
    if e in Flatten(f, init) {
      FlattenMembers(f, init, e);
      var k :| 0 <= k < |init| && e in f(init[k]);
      assert init[k] == ps[k];
    } else {
      assert e in f(ps[|ps| - 1]);
    }
  }

  /** The entries of one key pair, as a function of the pair. */
  function PairTable(users: seq<User>): KeyPair -> seq<ClusterEntry> {
    (p: KeyPair) => PairEntries(users, p.0, p.1)
  }

  /** The candidates of a list of key pairs, in order. */
  function Candidates(users: seq<User>, pairs: seq<KeyPair>): seq<ClusterEntry> {
    Flatten(PairTable(users), pairs)
  }

  /** One more column: RowEntries grows by the entry of cell (r, c). */
  lemma RowEntriesStep(users: seq<User>, x: GroupKey, y: GroupKey, rows: seq<Category>, cols: seq<Category>, r: nat, c: nat)
    requires r < |rows| && c < |cols|
    ensures RowEntries(users, x, y, rows, cols, r, c + 1)
      == RowEntries(users, x, y, rows, cols, r, c) + CellEntry(x, y, cols[c].caption, rows[r].caption, CellMembers(users, rows, cols, r, c))
  {
  }

  /** One cell: an entry when the cell has members, none otherwise. */
  method ScanCell(users: seq<User>, x: GroupKey, y: GroupKey, rows: seq<Category>, cols: seq<Category>, r: nat, c: nat,
                  arr: seq<int>, m: seq<User>)
    returns (cell: seq<ClusterEntry>)
    requires r < |rows| && c < |cols|
    requires m == CellMembers(users, rows, cols, r, c) && arr == StressList(m)
    ensures cell == CellEntry(x, y, cols[c].caption, rows[r].caption, CellMembers(users, rows, cols, r, c))
  {
    if |arr| > 0 {
      cell := [ClusterEntry(AverageTenths(arr), |arr|, x, y, cols[c].caption, rows[r].caption, m)];
    } else {
      cell := [];
    }
  }

  /** The inner cols loop over row r. */
  method ScanRow(users: seq<User>, x: GroupKey, y: GroupKey, rows: seq<Category>, cols: seq<Category>, r: nat,
                 vals: seq<seq<seq<int>>>, members: seq<seq<seq<User>>>)
    returns (entries: seq<ClusterEntry>)
    requires r < |rows|
    requires IsGrid(vals, |rows|, |cols|) && IsGrid(members, |rows|, |cols|)
    requires forall c :: 0 <= c < |cols| ==>
      members[r][c] == CellMembers(users, rows, cols, r, c) && vals[r][c] == StressList(members[r][c])
    ensures entries == RowEntries(users, x, y, rows, cols, r, |cols|)
  {
    entries := [];
    for c := 0 to |cols|
      invariant entries == RowEntries(users, x, y, rows, cols, r, c)
    {
      var cell := ScanCell(users, x, y, rows, cols, r, c, vals[r][c], members[r][c]);
      RowEntriesStep(users, x, y, rows, cols, r, c);
      entries := entries + cell;
    }
  }

  /** The rows loop over one cross table, pushing the non-empty cells. */
  method ScanGrid(users: seq<User>, x: GroupKey, y: GroupKey, rows: seq<Category>, cols: seq<Category>)
    returns (entries: seq<ClusterEntry>)
    ensures entries == GridEntries(users, x, y, rows, cols, |rows|)
  {
    var vals, members := BuildMatrix(users, rows, cols);
    entries := [];
    for r := 0 to |rows|
      invariant entries == GridEntries(users, x, y, rows, cols, r)
    {
      var line := ScanRow(users, x, y, rows, cols, r, vals, members);
      entries := entries + line;
    }
  }

  /** One key pair: the categories of x on the columns, those of y on the rows. */
  method ScanPair(users: seq<User>, x: GroupKey, y: GroupKey) returns (entries: seq<ClusterEntry>)
    ensures entries == PairEntries(users, x, y)
  {
    var cols, rows := GetCategories(x), GetCategories(y);
    entries := ScanGrid(users, x, y, rows, cols);
  }

  /** The pairs of keys[i] with keys[i + 1 ..], one more at a time. */
  lemma FlattenRowPairsStep<E>(f: KeyPair -> seq<E>, keys: seq<GroupKey>, i: nat, j: nat)
    requires i < j < |keys|
    ensures Flatten(f, RowPairs(keys, i, j + 1)) == Flatten(f, RowPairs(keys, i, j)) + f((keys[i], keys[j]))
  {
    FlattenSnoc(f, RowPairs(keys, i, j), (keys[i], keys[j]));
  }

  /** The pair table as the scan sees it: any function that agrees with PairEntries. */
  ghost predicate IsPairTable(users: seq<User>, table: KeyPair -> seq<ClusterEntry>) {
    forall p {:trigger PairEntries(users, p.0, p.1)} :: table(p) == PairEntries(users, p.0, p.1)
  }

  /** One pass of the inner loop: the entries of (keys[i], keys[j]) are appended. */
  method PushPair(users: seq<User>, keys: seq<GroupKey>, i: nat, j: nat, ghost table: KeyPair -> seq<ClusterEntry>,
                  entries: seq<ClusterEntry>)
    returns (next: seq<ClusterEntry>)
    requires i < j < |keys| && IsPairTable(users, table)
    requires entries == Flatten(table, RowPairs(keys, i, j))
    ensures next == Flatten(table, RowPairs(keys, i, j + 1))
  {
    var cell := ScanPair(users, keys[i], keys[j]);
    FlattenRowPairsStep(table, keys, i, j);
    next := entries + cell;
  }

  /** The inner loop: keys[i] paired with each later key. */
  method ScanFrom(users: seq<User>, keys: seq<GroupKey>, i: nat, ghost table: KeyPair -> seq<ClusterEntry>)
    returns (entries: seq<ClusterEntry>)
    requires i < |keys| && IsPairTable(users, table)
    ensures entries == Flatten(table, RowPairs(keys, i, |keys|))
  {
    entries := [];
    for j := i + 1 to |keys|
      invariant entries == Flatten(table, RowPairs(keys, i, j))
    {
      entries := PushPair(users, keys, i, j, table, entries);
    }
  }

  /** The two nested loops over keys[i], keys[j] with i < j. */
  method ScanKeys(users: seq<User>, keys: seq<GroupKey>) returns (candidates: seq<ClusterEntry>)
    ensures candidates == Candidates(users, PairsUpTo(keys, |keys|))
  {
    ghost var f := PairTable(users);
    candidates := [];
    for i := 0 to |keys|
      invariant candidates == Flatten(f, PairsUpTo(keys, i))
    {
      var row := ScanFrom(users, keys, i, f);
      FlattenAppend(f, PairsUpTo(keys, i), RowPairs(keys, i, |keys|));
      candidates := candidates + row;
    }
  }

  /** The candidate scan over the four candidate keys. */
  method TopCandidates(users: seq<User>) returns (candidates: seq<ClusterEntry>)
    ensures candidates == Candidates(users, PairsUpTo(CANDIDATE_KEYS, |CANDIDATE_KEYS|))
  {
    candidates := ScanKeys(users, CANDIDATE_KEYS);
  }

  /** A candidate's place: average first, then size. */
  function Rank(e: ClusterEntry): Key {
    Key(e.avg as real, e.size as real)
  }

  /** top3 = the candidates sorted, then slice(0, 3). */
  function Top3(candidates: seq<ClusterEntry>): seq<ClusterEntry> {
    Take(Sort(Rank, candidates), 3)
  }

  /**
   * top3 holds min(3, n) candidates, ranked by average and then size, both
   * descending; none of the candidates left out ranks above any of them, and
   * candidates that tie keep their scan order.
   */
  lemma Top3Spec(candidates: seq<ClusterEntry>)
    ensures |Top3(candidates)| == if |candidates| < 3 then |candidates| else 3
    ensures SortedDesc(Rank, Top3(candidates))
    ensures forall e :: e in Top3(candidates) ==> e in candidates
    ensures forall i, j :: 0 <= i < |Top3(candidates)| <= j < |Sort(Rank, candidates)| ==>
      AtLeast(Rank(Top3(candidates)[i]), Rank(Sort(Rank, candidates)[j]))
    ensures multiset(Sort(Rank, candidates)) == multiset(candidates)
    ensures forall k :: KeyClass(Rank, Sort(Rank, candidates), k) == KeyClass(Rank, candidates, k)
  {
    SortSpec(Rank, candidates);
    var sorted := Sort(Rank, candidates);
    forall e | e in Top3(candidates) ensures e in candidates {
      assert e in sorted;
      assert e in multiset(sorted);
    }
  }

  /** The entries of one pair are non-empty cells whose size and average are those of their members. */
  predicate WellFormed(e: ClusterEntry) {
    e.size == |e.members| && e.size > 0 && e.avg == AverageTenths(StressList(e.members))
  }

  /** A well-formed entry of the cross table with x on the columns and y on the rows. */
  predicate Fits(x: GroupKey, y: GroupKey, e: ClusterEntry) {
    WellFormed(e) && e.xKey == x && e.yKey == y
  }

  /** Every entry of es fits x and y. */
  predicate AllFit(x: GroupKey, y: GroupKey, es: seq<ClusterEntry>) {
    es == [] || (AllFit(x, y, es[..|es| - 1]) && Fits(x, y, es[|es| - 1]))
  }

  lemma {:induction false} AllFitAppend(x: GroupKey, y: GroupKey, a: seq<ClusterEntry>, b: seq<ClusterEntry>)
    requires AllFit(x, y, a) && AllFit(x, y, b)
    ensures AllFit(x, y, a + b)
    decreases |b|
  {
    if b == [] {
      assert a + b == a;
    } else {
      var b' := b[..|b| - 1];
      AllFitAppend(x, y, a, b');
      DropLastAppend(a, b);
    }
  }

  /** Dropping the last element of a + b, for a non-empty b. */
  lemma DropLastAppend<T>(a: seq<T>, b: seq<T>)
    requires b != []
    ensures (a + b)[..|a + b| - 1] == a + b[..|b| - 1]
    ensures (a + b)[|a + b| - 1] == b[|b| - 1]
  {
  }

  lemma {:induction false} AllFitAt(x: GroupKey, y: GroupKey, es: seq<ClusterEntry>, i: nat)
    requires AllFit(x, y, es) && i < |es|
    ensures Fits(x, y, es[i])
    decreases |es|
  {
    if i < |es| - 1 {
      AllFitAt(x, y, es[..|es| - 1], i);
    }
  }

  lemma CellEntryFits(x: GroupKey, y: GroupKey, xLabel: string, yLabel: string, m: seq<User>)
    ensures AllFit(x, y, CellEntry(x, y, xLabel, yLabel, m))
  {
    if m != [] {
      var e := ClusterEntry(AverageTenths(StressList(m)), |m|, x, y, xLabel, yLabel, m);
      assert Fits(x, y, e);
      assert [e][..0] == [];
      assert AllFit(x, y, []);
    }
  }

  lemma {:induction false} RowEntriesWellFormed(users: seq<User>, x: GroupKey, y: GroupKey, rows: seq<Category>, cols: seq<Category>, r: nat, nc: nat)
    requires r < |rows| && nc <= |cols|
    ensures AllFit(x, y, RowEntries(users, x, y, rows, cols, r, nc))
  {
    if nc > 0 {
      RowEntriesWellFormed(users, x, y, rows, cols, r, nc - 1);
      var m := CellMembers(users, rows, cols, r, nc - 1);
      CellEntryFits(x, y, cols[nc - 1].caption, rows[r].caption, m);
      AllFitAppend(x, y, RowEntries(users, x, y, rows, cols, r, nc - 1), CellEntry(x, y, cols[nc - 1].caption, rows[r].caption, m));
    }
  }

  lemma {:induction false} GridEntriesWellFormed(users: seq<User>, x: GroupKey, y: GroupKey, rows: seq<Category>, cols: seq<Category>, nr: nat)
    requires nr <= |rows|
    ensures AllFit(x, y, GridEntries(users, x, y, rows, cols, nr))
  {
    if nr > 0 {
      GridEntriesWellFormed(users, x, y, rows, cols, nr - 1);
      RowEntriesWellFormed(users, x, y, rows, cols, nr - 1, |cols|);
      GridEntriesStep(users, x, y, rows, cols, nr - 1);
    }
  }

  /** One more row: AllFit of the rows so far and of the new row gives AllFit of GridEntries. */
  lemma GridEntriesStep(users: seq<User>, x: GroupKey, y: GroupKey, rows: seq<Category>, cols: seq<Category>, r: nat)
    requires r < |rows|
    requires AllFit(x, y, GridEntries(users, x, y, rows, cols, r))
    requires AllFit(x, y, RowEntries(users, x, y, rows, cols, r, |cols|))
    ensures AllFit(x, y, GridEntries(users, x, y, rows, cols, r + 1))
  {
    AllFitAppend(x, y, GridEntries(users, x, y, rows, cols, r), RowEntries(users, x, y, rows, cols, r, |cols|));
  }

  lemma PairEntriesFit(users: seq<User>, x: GroupKey, y: GroupKey)
    ensures AllFit(x, y, PairEntries(users, x, y))
  {
    var rows := GetCategories(y);
    GridEntriesWellFormed(users, x, y, rows, GetCategories(x), |rows|);
  }

  lemma MemberFits(x: GroupKey, y: GroupKey, es: seq<ClusterEntry>, e: ClusterEntry)
    requires AllFit(x, y, es) && e in es
    ensures Fits(x, y, e)
  {
    var i :| 0 <= i < |es| && es[i] == e;
    AllFitAt(x, y, es, i);
  }

  lemma CandidatesWellFormed(users: seq<User>, pairs: seq<KeyPair>)
    ensures forall e :: e in Candidates(users, pairs) ==> WellFormed(e) && (e.xKey, e.yKey) in pairs
  {
    forall e | e in Candidates(users, pairs) ensures WellFormed(e) && (e.xKey, e.yKey) in pairs {
      FlattenMembers(PairTable(users), pairs, e);
      var k :| 0 <= k < |pairs| && e in PairTable(users)(pairs[k]);
      var p := pairs[k];
      PairEntriesFit(users, p.0, p.1);
      MemberFits(p.0, p.1, PairEntries(users, p.0, p.1), e);
    }
  }

  /**
   * Every candidate of the scan is a non-empty cell: its size is its member
   * count, its average the one-decimal mean of their stress, and its keys one
   * of the six pairs.
   */
  lemma ScanCandidatesSpec(users: seq<User>)
    ensures forall e :: e in Candidates(users, PairsUpTo(CANDIDATE_KEYS, 4)) ==>
      WellFormed(e) && exists a, b :: 0 <= a < b < 4 && e.xKey == CANDIDATE_KEYS[a] && e.yKey == CANDIDATE_KEYS[b]
  {
    CandidatesWellFormed(users, PairsUpTo(CANDIDATE_KEYS, 4));
    CandidatePairs();
  }
}
