/**
 * The department by years-of-service table of StressDeptYearsTable.tsx: the
 * two departments on the columns, three years buckets on the rows, and in
 * each cell the stress measures of its users. A user without a
 * yearsOfService counts as one year; a user in no bucket is skipped; a
 * bucketed user of another department makes the push into the matrix fail.
 */
module DeptYears {
  import opened Wrappers
  import opened Users
  import opened StressMeasure
  import opened CrossMatrix

  /** The departments, in column order. */
  const COLS: seq<string> := ["営業部", "技術部"]

  /** The three range tests the rows use. */
  datatype Range = Exactly(n: int) | Between(lo: int, hi: int) | AtLeast(least: int)

  datatype YearsRow = YearsRow(key: string, caption: string, test: Range)

  const ROWS: seq<YearsRow> := [
    YearsRow("1", "～1年", Exactly(1)),
    YearsRow("2-5", "2～5年", Between(2, 5)),
    YearsRow("6+", "6年～", AtLeast(6))]

  predicate InRange(range: Range, y: int) {
    match range
    case Exactly(n) => y == n
    case Between(lo, hi) => lo <= y <= hi
    case AtLeast(least) => y >= least
  }

  /** rows.find(r => r.range(y)), as an index. */
  function FindRow(rows: seq<YearsRow>, y: int): (r: Option<nat>)
    ensures r.Some? ==>
      r.value < |rows| && InRange(rows[r.value].test, y) && forall j :: 0 <= j < r.value ==> !InRange(rows[j].test, y)
    ensures r.None? ==> forall j :: 0 <= j < |rows| ==> !InRange(rows[j].test, y)
  {
    if rows == [] then None
    else if InRange(rows[0].test, y) then Some(0)
    else match FindRow(rows[1..], y)
      case None => None
      case Some(k) => Some(k + 1)
  }

  /** yearsOfService ?? 1 */
  function YearsOf(u: User): int {
    u.yearsOfService.GetOr(1)
  }

  function RowOf(u: User): Option<nat> {
    FindRow(ROWS, YearsOf(u))
  }

  /** The column of a department, None for a department the table has no column for. */
  function ColumnOf(department: string): (c: Option<nat>)
    ensures c.Some? ==> c.value < |COLS| && COLS[c.value] == department
    ensures c.None? ==> department !in COLS
  {
    if department == COLS[0] then Some(0) else if department == COLS[1] then Some(1) else None
  }

  /** The buckets: exactly 1 year, 2 to 5, 6 or more; no bucket for 0 or fewer. */
  lemma YearBuckets(y: int)
    ensures FindRow(ROWS, y) == if y == 1 then Some(0) else if 2 <= y <= 5 then Some(1) else if y >= 6 then Some(2) else None
  {
    assert ROWS[1..][1..] == [ROWS[2]];
  }

  /** A missing yearsOfService lands in the first bucket. */
  lemma MissingYearsIsOne(u: User)
    requires u.yearsOfService.None?
    ensures RowOf(u) == Some(0)
  {
    YearBuckets(1);
  }

  /** A bucketed user whose department has no column: the push into the matrix fails. */
  predicate Misfiled(u: User) {
    RowOf(u).Some? && ColumnOf(u.department).None?
  }

  /** The users of cell (r, c), in population order. */
  function Bucket(users: seq<User>, r: nat, c: nat): seq<User> {
    if users == [] then []
    else
      var last := users[|users| - 1];
      Bucket(users[..|users| - 1], r, c) + (if RowOf(last) == Some(r) && ColumnOf(last.department) == Some(c) then [last] else [])
  }

  lemma BucketStep(users: seq<User>, i: nat, r: nat, c: nat)
    requires i < |users|
    ensures Bucket(users[..i + 1], r, c) == if RowOf(users[i]) == Some(r) && ColumnOf(users[i].department) == Some(c)
      then Bucket(users[..i], r, c) + [users[i]] else Bucket(users[..i], r, c)
  {
    assert users[..i + 1][..i] == users[..i];
    var b := Bucket(users[..i], r, c);
    assert b + [] == b;
  }

  /** The cells hold the measures of users[..i]. */
  predicate Holds(users: seq<User>, i: nat, m: seq<seq<seq<int>>>)
    requires i <= |users|
  {
    IsGrid(m, |ROWS|, |COLS|)
      && forall r, c :: 0 <= r < |ROWS| && 0 <= c < |COLS| ==> m[r][c] == StressList(Bucket(users[..i], r, c))
  }

  /** Appending x to cell (r, c) of a grid changes that cell and no other. */
  lemma GridPush<T>(m: seq<seq<seq<T>>>, nr: nat, nc: nat, r: nat, c: nat, x: T)
    requires IsGrid(m, nr, nc) && r < nr && c < nc
    ensures IsGrid(m[r := m[r][c := m[r][c] + [x]]], nr, nc)
    ensures forall r', c' :: 0 <= r' < nr && 0 <= c' < nc ==>
      m[r := m[r][c := m[r][c] + [x]]][r'][c'] == if r' == r && c' == c then m[r][c] + [x] else m[r'][c']
  {
  }

  /** After users[i] is pushed into its cell (r, c), cell (r', c') holds the measures of users[..i + 1]. */
  lemma PushedCell(users: seq<User>, i: nat, r: nat, c: nat, r': nat, c': nat, before: seq<int>, after: seq<int>)
    requires i < |users|
    requires RowOf(users[i]) == Some(r) && ColumnOf(users[i].department) == Some(c)
    requires before == StressList(Bucket(users[..i], r', c'))
    requires after == if r' == r && c' == c then before + [StressOf(users[i].responses)] else before
    ensures after == StressList(Bucket(users[..i + 1], r', c'))
  {
    BucketStep(users, i, r', c');
    if r' == r && c' == c {
      var b := Bucket(users[..i], r, c);
      assert (b + [users[i]])[..|b|] == b;
    }
  }

  /** The push of users[i]'s measure into cell (r, c). */
  method PushStress(users: seq<User>, i: nat, m: seq<seq<seq<int>>>, r: nat, c: nat, stress: int)
    returns (m': seq<seq<seq<int>>>)
    requires i < |users| && r < |ROWS| && c < |COLS|
    requires RowOf(users[i]) == Some(r) && ColumnOf(users[i].department) == Some(c)
    requires stress == StressOf(users[i].responses)
    requires Holds(users, i, m)
    ensures Holds(users, i + 1, m')
  {
    GridPush(m, |ROWS|, |COLS|, r, c, stress);
    m' := m[r := m[r][c := m[r][c] + [stress]]];
    forall r', c' | 0 <= r' < |ROWS| && 0 <= c' < |COLS|
      ensures m'[r'][c'] == StressList(Bucket(users[..i + 1], r', c'))
    {
      PushedCell(users, i, r, c, r', c', m[r'][c'], m'[r'][c']);
    }
  }

  /**
   * buildMatrix: fails at the first bucketed user whose department has no
   * column; otherwise every cell holds the measures of its users, in order.
   */
  method BuildDeptYears(users: seq<User>) returns (res: Result<seq<seq<seq<int>>>, nat>)
    ensures res.Failure? ==>
      res.error < |users| && Misfiled(users[res.error]) && forall j :: 0 <= j < res.error ==> !Misfiled(users[j])
    ensures res.Success? ==> forall j :: 0 <= j < |users| ==> !Misfiled(users[j])
    ensures res.Success? ==> IsGrid(res.value, |ROWS|, |COLS|)
    ensures res.Success? ==>
      forall r, c :: 0 <= r < |ROWS| && 0 <= c < |COLS| ==> res.value[r][c] == StressList(Bucket(users, r, c))
  {
    var m: seq<seq<seq<int>>> := seq(|ROWS|, _ => seq(|COLS|, _ => []));
    for i := 0 to |users|
      invariant Holds(users, i, m)
      invariant forall j :: 0 <= j < i ==> !Misfiled(users[j])
    {
      var u := users[i];
      var y := if u.yearsOfService.Some? then u.yearsOfService.value else 1;
      var row := FindRow(ROWS, y);
      if row.Some? {
        var col := ColumnOf(u.department);
        if col.None? {
          return Failure(i);
        }
        var stress := CalcStress(u.responses);
        m := PushStress(users, i, m, row.value, col.value, stress);
      } else {
        assert RowOf(u).None?;
        forall r, c | 0 <= r < |ROWS| && 0 <= c < |COLS|
          ensures m[r][c] == StressList(Bucket(users[..i + 1], r, c))
        {
          BucketStep(users, i, r, c);
        }
      }
    }
    assert users[..|users|] == users;
    res := Success(m);
  }

  /** The users that land in some row. */
  function Bucketed(users: seq<User>): nat {
    if users == [] then 0 else Bucketed(users[..|users| - 1]) + (if RowOf(users[|users| - 1]).Some? then 1 else 0)
  }

  function CellSizes(users: seq<User>): nat {
    |Bucket(users, 0, 0)| + |Bucket(users, 0, 1)| + |Bucket(users, 1, 0)|
      + |Bucket(users, 1, 1)| + |Bucket(users, 2, 0)| + |Bucket(users, 2, 1)|
  }

  /** Without a misfiled user, the six cells together hold every bucketed user exactly once. */
  lemma {:induction false} BucketsCover(users: seq<User>)
    requires forall j :: 0 <= j < |users| ==> !Misfiled(users[j])
    ensures CellSizes(users) == Bucketed(users)
  {
    if users != [] {
      var init := users[..|users| - 1];
      var u := users[|users| - 1];
      BucketsCover(init);
      var row := RowOf(u);
      assert row.Some? ==> row.value < 3;
    }
  }

  /** A cell shows "-" (None) when empty and its one-decimal mean otherwise. */
  function CellText(vals: seq<int>): (t: Option<int>)
    ensures t.None? <==> vals == []
  {
    if |vals| > 0 then Some(AverageTenths(vals)) else None
  }

  /**
   * A cell of the built table shows "-" exactly when none of the users is in
   * it; when every user of the cell answered items 18-46 within 1..4 it shows
   * a mean between 29.0 and 116.0.
   */
  lemma CellTextOfBucket(users: seq<User>, r: nat, c: nat)
    requires forall i :: 0 <= i < |Bucket(users, r, c)| ==>
      forall q :: 18 <= q <= 46 ==> DomainScoring.ValidAnswer(DomainScoring.Answer(Bucket(users, r, c)[i].responses, q))
    ensures CellText(StressList(Bucket(users, r, c))).None? <==> Bucket(users, r, c) == []
    ensures Bucket(users, r, c) != [] ==> 290 <= CellText(StressList(Bucket(users, r, c))).value <= 1160
  {
    var b := Bucket(users, r, c);
    if b != [] {
      StressListBounds(b);
      AverageBounds(StressList(b), 29, 116);
    }
  }
}
