/**
 * The cross table of CrossStressTable.tsx: each user goes to the cell of the
 * first row category and the first column category it matches (users that
 * match no row or no column are left out); a cell holds its users and their
 * stress measures; cell averages are one-decimal means, and the colour scale
 * spans the smallest and largest positive average.
 */
module CrossMatrix {
  import opened Wrappers
  import opened Users
  import opened Grouping
  import opened StressMeasure

  /** The cell a user lands in, if any: (row index, column index). */
  function PlacedAt(rows: seq<Category>, cols: seq<Category>, u: User): Option<(nat, nat)> {
    match (FindCategory(rows, u), FindCategory(cols, u))
    case (Some(r), Some(c)) => Some((r, c))
    case _ => None
  }

  /** The users of cell (r, c), in population order. */
  function CellMembers(users: seq<User>, rows: seq<Category>, cols: seq<Category>, r: nat, c: nat): seq<User> {
    if users == [] then []
    else
      var last := users[|users| - 1];
      CellMembers(users[..|users| - 1], rows, cols, r, c) + (if PlacedAt(rows, cols, last) == Some((r, c)) then [last] else [])
  }

  /** calcStress of each user, in order. */
  function StressList(members: seq<User>): (r: seq<int>)
    ensures |r| == |members|
  {
    if members == [] then [] else StressList(members[..|members| - 1]) + [StressOf(members[|members| - 1].responses)]
  }

  predicate IsGrid<T>(g: seq<seq<T>>, nr: nat, nc: nat) {
    |g| == nr && forall r :: 0 <= r < nr ==> |g[r]| == nc
  }

  /** The matrix initialisation and the users loop that pushes each placed user's measure and record. */
  method BuildMatrix(users: seq<User>, rows: seq<Category>, cols: seq<Category>)
    returns (vals: seq<seq<seq<int>>>, members: seq<seq<seq<User>>>)
    ensures IsGrid(vals, |rows|, |cols|) && IsGrid(members, |rows|, |cols|)
    ensures forall r, c :: 0 <= r < |rows| && 0 <= c < |cols| ==>
      members[r][c] == CellMembers(users, rows, cols, r, c) && vals[r][c] == StressList(members[r][c])
  {
    vals := seq(|rows|, _ => seq(|cols|, _ => []));
    members := seq(|rows|, _ => seq(|cols|, _ => []));
    for i := 0 to |users|
      invariant IsGrid(vals, |rows|, |cols|) && IsGrid(members, |rows|, |cols|)
      invariant forall r, c :: 0 <= r < |rows| && 0 <= c < |cols| ==>
        members[r][c] == CellMembers(users[..i], rows, cols, r, c) && vals[r][c] == StressList(members[r][c])
    {
      var u := users[i];
      var row := FindCategory(rows, u);
      var col := FindCategory(cols, u);
      if row.Some? && col.Some? {
        var r, c := row.value, col.value;
        var stress := CalcStress(u.responses);
        vals, members := PushCell(users, rows, cols, i, vals, members, r, c, stress);
      } else {
        forall r, c | 0 <= r < |rows| && 0 <= c < |cols|
          ensures members[r][c] == CellMembers(users[..i + 1], rows, cols, r, c)
        {
          CellMembersStep(users, rows, cols, i, r, c);
        }
      }
    }
    assert users[..|users|] == users;
  }

  /** Adding users[i] to the population extends exactly the cell it lands in. */
  lemma CellMembersStep(users: seq<User>, rows: seq<Category>, cols: seq<Category>, i: nat, r: nat, c: nat)
    requires i < |users|
    ensures CellMembers(users[..i + 1], rows, cols, r, c)
      == CellMembers(users[..i], rows, cols, r, c) + (if PlacedAt(rows, cols, users[i]) == Some((r, c)) then [users[i]] else [])
  {
    assert users[..i + 1][..i] == users[..i];
  }

  /** The push into cell (r, c) of the users loop. */
  method PushCell(users: seq<User>, rows: seq<Category>, cols: seq<Category>, i: nat,
                  vals: seq<seq<seq<int>>>, members: seq<seq<seq<User>>>, r: nat, c: nat, stress: int)
    returns (vals': seq<seq<seq<int>>>, members': seq<seq<seq<User>>>)
    requires i < |users| && r < |rows| && c < |cols|
    requires PlacedAt(rows, cols, users[i]) == Some((r, c)) && stress == StressOf(users[i].responses)
    requires IsGrid(vals, |rows|, |cols|) && IsGrid(members, |rows|, |cols|)
    requires forall r, c :: 0 <= r < |rows| && 0 <= c < |cols| ==>
      members[r][c] == CellMembers(users[..i], rows, cols, r, c) && vals[r][c] == StressList(members[r][c])
    ensures IsGrid(vals', |rows|, |cols|) && IsGrid(members', |rows|, |cols|)
    ensures forall r, c :: 0 <= r < |rows| && 0 <= c < |cols| ==>
      members'[r][c] == CellMembers(users[..i + 1], rows, cols, r, c) && vals'[r][c] == StressList(members'[r][c])
  {
    var u := users[i];
    assert (members[r][c] + [u])[..|members[r][c]|] == members[r][c];
    vals' := vals[r := vals[r][c := vals[r][c] + [stress]]];
    members' := members[r := members[r][c := members[r][c] + [u]]];
    forall r', c' | 0 <= r' < |rows| && 0 <= c' < |cols|
      ensures members'[r'][c'] == CellMembers(users[..i + 1], rows, cols, r', c')
      ensures vals'[r'][c'] == StressList(members'[r'][c'])
    {
      CellMembersStep(users, rows, cols, i, r', c');
    }
  }

  /** Where each user lands, in population order. */
  function Placements(users: seq<User>, rows: seq<Category>, cols: seq<Category>): (ps: seq<Option<(nat, nat)>>)
    ensures |ps| == |users|
  {
    if users == [] then []
    else Placements(users[..|users| - 1], rows, cols) + [PlacedAt(rows, cols, users[|users| - 1])]
  }

  /** How many placements are the cell (r, c). */
  function Hits(ps: seq<Option<(nat, nat)>>, r: nat, c: nat): nat {
    if ps == [] then 0 else Hits(ps[..|ps| - 1], r, c) + (if ps[|ps| - 1] == Some((r, c)) then 1 else 0)
  }

  /** How many placements are some cell at all. */
  function Placed(ps: seq<Option<(nat, nat)>>): nat {
    if ps == [] then 0 else Placed(ps[..|ps| - 1]) + (if ps[|ps| - 1].Some? then 1 else 0)
  }

  lemma {:induction false} MembersAreHits(users: seq<User>, rows: seq<Category>, cols: seq<Category>, r: nat, c: nat)
    ensures |CellMembers(users, rows, cols, r, c)| == Hits(Placements(users, rows, cols), r, c)
  {
    if users != [] {
      var ps := Placements(users, rows, cols);
      MembersAreHits(users[..|users| - 1], rows, cols, r, c);
      assert ps[..|ps| - 1] == Placements(users[..|users| - 1], rows, cols);
    }
  }

  function RowHits(ps: seq<Option<(nat, nat)>>, r: nat, nc: nat): nat {
    if nc == 0 then 0 else RowHits(ps, r, nc - 1) + Hits(ps, r, nc - 1)
  }

  function GridHits(ps: seq<Option<(nat, nat)>>, nr: nat, nc: nat): nat {
    if nr == 0 then 0 else GridHits(ps, nr - 1, nc) + RowHits(ps, nr - 1, nc)
  }

  /** 1 when placement p is in row r at a column below nc. */
  function HitsRow(p: Option<(nat, nat)>, r: nat, nc: nat): nat {
    if p.Some? && p.value.0 == r && p.value.1 < nc then 1 else 0
  }

  /** 1 when placement p is in a row below nr and a column below nc. */
  function HitsGrid(p: Option<(nat, nat)>, nr: nat, nc: nat): nat {
    if p.Some? && p.value.0 < nr && p.value.1 < nc then 1 else 0
  }

  lemma {:induction false} RowHitsStep(ps: seq<Option<(nat, nat)>>, r: nat, nc: nat)
    requires ps != []
    ensures RowHits(ps, r, nc) == RowHits(ps[..|ps| - 1], r, nc) + HitsRow(ps[|ps| - 1], r, nc)
  {
    if nc > 0 {
      RowHitsStep(ps, r, nc - 1);
    }
  }

  lemma {:induction false} GridHitsStep(ps: seq<Option<(nat, nat)>>, nr: nat, nc: nat)
    requires ps != []
    ensures GridHits(ps, nr, nc) == GridHits(ps[..|ps| - 1], nr, nc) + HitsGrid(ps[|ps| - 1], nr, nc)
  {
    if nr > 0 {
      GridHitsStep(ps, nr - 1, nc);
      RowHitsStep(ps, nr - 1, nc);
    }
  }

  lemma {:induction false} GridHitsEmpty(nr: nat, nc: nat)
    ensures GridHits([], nr, nc) == 0
  {
    if nr > 0 {
      GridHitsEmpty(nr - 1, nc);
      RowHitsEmpty(nr - 1, nc);
    }
  }

  lemma {:induction false} RowHitsEmpty(r: nat, nc: nat)
    ensures RowHits([], r, nc) == 0
  {
    if nc > 0 {
      RowHitsEmpty(r, nc - 1);
    }
  }

  lemma {:induction false} GridHitsPlaced(ps: seq<Option<(nat, nat)>>, nr: nat, nc: nat)
    requires forall k :: 0 <= k < |ps| && ps[k].Some? ==> ps[k].value.0 < nr && ps[k].value.1 < nc
    ensures GridHits(ps, nr, nc) == Placed(ps)
  {
    if ps == [] {
      GridHitsEmpty(nr, nc);
    } else {
      var init := ps[..|ps| - 1];
      assert forall k :: 0 <= k < |init| ==> init[k] == ps[k];
      GridHitsPlaced(init, nr, nc);
      GridHitsStep(ps, nr, nc);
      var last := ps[|ps| - 1];
      assert HitsGrid(last, nr, nc) == (if last.Some? then 1 else 0);
      assert Placed(ps) == Placed(init) + (if last.Some? then 1 else 0);
    }
  }

  lemma {:induction false} PlacementsInRange(users: seq<User>, rows: seq<Category>, cols: seq<Category>)
    ensures forall k :: 0 <= k < |users| && Placements(users, rows, cols)[k].Some? ==>
      Placements(users, rows, cols)[k].value.0 < |rows| && Placements(users, rows, cols)[k].value.1 < |cols|
  {
    if users != [] {
      var u := users[|users| - 1];
      var ps, init := Placements(users, rows, cols), Placements(users[..|users| - 1], rows, cols);
      PlacementsInRange(users[..|users| - 1], rows, cols);
      assert ps == init + [PlacedAt(rows, cols, u)];
      assert forall k :: 0 <= k < |init| ==> ps[k] == init[k];
      var fr, fc := FindCategory(rows, u), FindCategory(cols, u);
      assert PlacedAt(rows, cols, u).Some? ==> fr.Some? && fc.Some? && PlacedAt(rows, cols, u) == Some((fr.value, fc.value));
      forall k | 0 <= k < |ps| && ps[k].Some? ensures ps[k].value.0 < |rows| && ps[k].value.1 < |cols| {
        if k < |init| {
          assert ps[k] == init[k];
        } else {
          assert ps[k] == PlacedAt(rows, cols, u);
        }
      }
    }
  }

  /**
   * The cells partition the placed users: each cell holds as many users as
   * land in it, and the cell sizes add up to the number of users that match
   * some row and some column, so each such user is counted in exactly one
   * cell and no other user in any.
   */
  lemma CellsPartitionPlaced(users: seq<User>, rows: seq<Category>, cols: seq<Category>)
    ensures forall r, c :: |CellMembers(users, rows, cols, r, c)| == Hits(Placements(users, rows, cols), r, c)
    ensures GridHits(Placements(users, rows, cols), |rows|, |cols|) == Placed(Placements(users, rows, cols))
  {
    forall r, c ensures |CellMembers(users, rows, cols, r, c)| == Hits(Placements(users, rows, cols), r, c) {
      MembersAreHits(users, rows, cols, r, c);
    }
    PlacementsInRange(users, rows, cols);
    GridHitsPlaced(Placements(users, rows, cols), |rows|, |cols|);
  }

  datatype Extent = Extent(lo: int, hi: int)

  /** The positive entries of a grid. */
  function Positives(avg: seq<seq<int>>): set<int> {
    set r, c | 0 <= r < |avg| && 0 <= c < |avg[r]| && avg[r][c] > 0 :: avg[r][c]
  }

  /** e is None when s is empty, and otherwise the least and the greatest element of s. */
  predicate Spans(s: set<int>, e: Option<Extent>) {
    (e.None? <==> s == {})
    && (e.Some? ==> e.value.lo in s && e.value.hi in s && forall x :: x in s ==> e.value.lo <= x <= e.value.hi)
  }

  /** min and max over the positive entries of a grid; None while there is none (min and max stay infinite). */
  predicate ExtentFits(avg: seq<seq<int>>, e: Option<Extent>) {
    Spans(Positives(avg), e)
  }

  /** One more positive value widens the extent to cover it. */
  function Widen(e: Option<Extent>, a: int): Option<Extent> {
    if e.None? then Some(Extent(a, a))
    else Some(Extent(if a < e.value.lo then a else e.value.lo, if a > e.value.hi then a else e.value.hi))
  }

  lemma WidenSpans(s: set<int>, e: Option<Extent>, a: int)
    requires Spans(s, e)
    ensures Spans(s + {a}, Widen(e, a))
  {
  }

  lemma PositivesExtend(avg: seq<seq<int>>, line: seq<int>, a: int)
    ensures Positives(avg + [line + [a]]) == Positives(avg + [line]) + (if a > 0 then {a} else {})
  {
    var g, g' := avg + [line], avg + [line + [a]];
    var n := |avg|;
    assert forall r, c :: 0 <= r < |g| && 0 <= c < |g[r]| ==> g'[r][c] == g[r][c];
    assert g'[n][|line|] == a;
    forall x | x in Positives(g') ensures x in Positives(g) + (if a > 0 then {a} else {}) {
      var r, c :| 0 <= r < |g'| && 0 <= c < |g'[r]| && g'[r][c] > 0 && g'[r][c] == x;
      if r < n || c < |line| {
        assert g[r][c] == x;
      }
    }
  }

  lemma PositivesOpen(avg: seq<seq<int>>)
    ensures Positives(avg + [[]]) == Positives(avg)
  {
    var g := avg + [[]];
    assert forall r, c :: 0 <= r < |g| && 0 <= c < |g[r]| ==> r < |avg| && g[r][c] == avg[r][c];
    assert forall r, c :: 0 <= r < |avg| && 0 <= c < |avg[r]| ==> g[r][c] == avg[r][c];
  }

  lemma ExtendLine(avg: seq<seq<int>>, line: seq<int>, e: Option<Extent>, a: int)
    requires ExtentFits(avg + [line], e)
    ensures ExtentFits(avg + [line + [a]], if a > 0 then Widen(e, a) else e)
  {
    PositivesExtend(avg, line, a);
    if a > 0 {
      WidenSpans(Positives(avg + [line]), e, a);
    } else {
      assert Positives(avg + [line + [a]]) == Positives(avg + [line]);
    }
  }

  /** Starting a new row of the grid keeps the extent. */
  lemma OpenLine(avg: seq<seq<int>>, e: Option<Extent>)
    requires ExtentFits(avg, e)
    ensures ExtentFits(avg + [[]], e)
  {
    PositivesOpen(avg);
  }

  /** The inner cols.forEach: one row of averages, widening the extent over its positive entries. */
  method AverageLine(avg: seq<seq<int>>, cells: seq<seq<int>>, extent: Option<Extent>)
    returns (line: seq<int>, extent': Option<Extent>)
    requires ExtentFits(avg + [[]], extent)
    ensures |line| == |cells|
    ensures forall k :: 0 <= k < |cells| ==> line[k] == AverageTenths(cells[k])
    ensures ExtentFits(avg + [line], extent')
  {
    line := [];
    extent' := extent;
    for c := 0 to |cells|
      invariant |line| == c
      invariant forall k :: 0 <= k < c ==> line[k] == AverageTenths(cells[k])
      invariant ExtentFits(avg + [line], extent')
    {
      var a := AverageTenths(cells[c]);
      ExtendLine(avg, line, extent', a);
      line := line + [a];
      if a > 0 {
        extent' := Widen(extent', a);
      }
    }
  }

  /** The average matrix and its min/max over cells with a positive average. */
  method AverageMatrix(vals: seq<seq<seq<int>>>) returns (avg: seq<seq<int>>, extent: Option<Extent>)
    ensures |avg| == |vals|
    ensures forall r :: 0 <= r < |vals| ==> |avg[r]| == |vals[r]|
    ensures forall r, c :: 0 <= r < |vals| && 0 <= c < |vals[r]| ==> avg[r][c] == AverageTenths(vals[r][c])
    ensures ExtentFits(avg, extent)
  {
    avg := [];
    extent := None;
    for r := 0 to |vals|
      invariant |avg| == r
      invariant forall i :: 0 <= i < r ==> |avg[i]| == |vals[i]|
      invariant forall i, c :: 0 <= i < r && 0 <= c < |vals[i]| ==> avg[i][c] == AverageTenths(vals[i][c])
      invariant ExtentFits(avg, extent)
    {
      OpenLine(avg, extent);
      var line;
      line, extent := AverageLine(avg, vals[r], extent);
      avg := avg + [line];
    }
  }

  /** A cell shows its average when it is positive and "-" otherwise (None). */
  function CellDisplay(avg: int): (d: Option<int>)
    ensures d.Some? <==> avg > 0
    ensures d.Some? ==> d.value == avg
  {
    if avg > 0 then Some(avg) else None
  }

  /**
   * An empty cell shows "-"; a cell whose members all answered items 18-46
   * within 1..4 averages between 29.0 and 116.0 and so shows its average.
   */
  lemma DisplayOfCell(members: seq<User>)
    requires forall i :: 0 <= i < |members| ==>
      forall q :: 18 <= q <= 46 ==> DomainScoring.ValidAnswer(DomainScoring.Answer(members[i].responses, q))
    ensures members == [] ==> CellDisplay(AverageTenths(StressList(members))) == None
    ensures members != [] ==>
      290 <= AverageTenths(StressList(members)) <= 1160
      && CellDisplay(AverageTenths(StressList(members))) == Some(AverageTenths(StressList(members)))
  {
    if members != [] {
      StressListBounds(members);
      AverageBounds(StressList(members), 29, 116);
    }
  }

  lemma {:induction false} StressListBounds(members: seq<User>)
    requires forall i :: 0 <= i < |members| ==>
      forall q :: 18 <= q <= 46 ==> DomainScoring.ValidAnswer(DomainScoring.Answer(members[i].responses, q))
    ensures forall i :: 0 <= i < |members| ==> 29 <= StressList(members)[i] <= 116
  {
    if members != [] {
      var init := members[..|members| - 1];
      StressListBounds(init);
      StressBounds(members[|members| - 1].responses);
    }
  }
}
