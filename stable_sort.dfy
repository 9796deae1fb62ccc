/**
 * Array.prototype.sort with a comparator that orders by a key descending, as
 * the three rankings of the system call it: (b.avg - a.avg) || (b.size - a.size),
 * |b.beta| - |a.beta| and b.risk - a.risk. Since ES2019 the sort is stable, so
 * elements whose keys tie keep their original order; that fixes the result,
 * and it is written here as an insertion sort.
 */
module StableSort {

  /** A sort key: compared on first, then on second. */
  datatype Key = Key(first: real, second: real)

  /** a ranks at least as high as b: the comparator does not put b first. */
  predicate AtLeast(a: Key, b: Key) {
    a.first > b.first || (a.first == b.first && a.second >= b.second)
  }

  predicate SortedDesc<T>(key: T -> Key, s: seq<T>) {
    forall i, j :: 0 <= i < j < |s| ==> AtLeast(key(s[i]), key(s[j]))
  }

  /** Place x after every element that ranks at least as high. */
  function Insert<T>(key: T -> Key, t: seq<T>, x: T): seq<T> {
    if t == [] || !AtLeast(key(t[0]), key(x)) then [x] + t
    else [t[0]] + Insert(key, t[1..], x)
  }

  /** The stable descending sort of s. */
  function Sort<T>(key: T -> Key, s: seq<T>): seq<T> {
    if s == [] then [] else Insert(key, Sort(key, s[..|s| - 1]), s[|s| - 1])
  }

  /** The elements of s whose key is k, in their order in s. */
  function KeyClass<T>(key: T -> Key, s: seq<T>, k: Key): seq<T> {
    if s == [] then [] else (if key(s[0]) == k then [s[0]] else []) + KeyClass(key, s[1..], k)
  }

  lemma {:induction false} InsertMultiset<T>(key: T -> Key, t: seq<T>, x: T)
    ensures multiset(Insert(key, t, x)) == multiset(t) + multiset{x}
  {
    if t != [] && AtLeast(key(t[0]), key(x)) {
      InsertMultiset(key, t[1..], x);
      assert t == [t[0]] + t[1..];
    }
  }

  lemma {:induction false} InsertSorted<T>(key: T -> Key, t: seq<T>, x: T)
    requires SortedDesc(key, t)
    ensures SortedDesc(key, Insert(key, t, x))
  {
    if t != [] && AtLeast(key(t[0]), key(x)) {
      var rest := Insert(key, t[1..], x);
      InsertSorted(key, t[1..], x);
      InsertMultiset(key, t[1..], x);
      forall j | 0 <= j < |rest| ensures AtLeast(key(t[0]), key(rest[j])) {
        assert rest[j] in multiset(rest);
        if rest[j] != x {
          assert rest[j] in multiset(t[1..]);
          var m :| 0 <= m < |t[1..]| && t[1..][m] == rest[j];
          assert t[m + 1] == rest[j];
        }
      }
    } else if t != [] {
      forall i, j | 0 <= i < j < |[x] + t| ensures AtLeast(key(([x] + t)[i]), key(([x] + t)[j])) {
        if i == 0 {
          assert AtLeast(key(t[0]), key(t[j - 1])) || j == 1;
        }
      }
    }
  }

  lemma {:induction false} KeyClassAppend<T>(key: T -> Key, a: seq<T>, b: seq<T>, k: Key)
    ensures KeyClass(key, a + b, k) == KeyClass(key, a, k) + KeyClass(key, b, k)
  {
    if a == [] {
      assert a + b == b;
    } else {
      KeyClassAppend(key, a[1..], b, k);
      assert (a + b)[0] == a[0];
      assert (a + b)[1..] == a[1..] + b;
    }
  }

  /** When every element ranks below k, none of them has key k. */
  lemma {:induction false} KeyClassBelow<T>(key: T -> Key, t: seq<T>, k: Key)
    requires forall i :: 0 <= i < |t| ==> !AtLeast(key(t[i]), k)
    ensures KeyClass(key, t, k) == []
  {
    if t != [] {
      KeyClassBelow(key, t[1..], k);
    }
  }

  /** Inserting x into a sorted list puts it last among the elements with its key: ties keep their order. */
  lemma {:induction false} InsertKeyClass<T>(key: T -> Key, t: seq<T>, x: T, k: Key)
    requires SortedDesc(key, t)
    ensures KeyClass(key, Insert(key, t, x), k) == KeyClass(key, t, k) + (if key(x) == k then [x] else [])
  {
    if t == [] {
    } else if !AtLeast(key(t[0]), key(x)) {
      var r := [x] + t;
      assert r[1..] == t;
      if key(x) == k {
        KeyClassBelow(key, t, k);
      }
    } else {
      InsertKeyClass(key, t[1..], x, k);
      assert Insert(key, t, x)[1..] == Insert(key, t[1..], x);
    }
  }

  lemma {:induction false} SortPermutes<T>(key: T -> Key, s: seq<T>)
    ensures multiset(Sort(key, s)) == multiset(s)
    ensures |Sort(key, s)| == |s|
  {
    if s != [] {
      var init, last := s[..|s| - 1], s[|s| - 1];
      SortPermutes(key, init);
      InsertMultiset(key, Sort(key, init), last);
      assert s == init + [last];
      assert |Sort(key, s)| == |multiset(Sort(key, s))|;
    }
  }

  lemma {:induction false} SortSorted<T>(key: T -> Key, s: seq<T>)
    ensures SortedDesc(key, Sort(key, s))
  {
    if s != [] {
      SortSorted(key, s[..|s| - 1]);
      InsertSorted(key, Sort(key, s[..|s| - 1]), s[|s| - 1]);
    }
  }

  lemma {:induction false} SortStable<T>(key: T -> Key, s: seq<T>, k: Key)
    ensures KeyClass(key, Sort(key, s), k) == KeyClass(key, s, k)
  {
    if s != [] {
      var init, last := s[..|s| - 1], s[|s| - 1];
      SortStable(key, init, k);
      SortSorted(key, init);
      InsertKeyClass(key, Sort(key, init), last, k);
      KeyClassAppend(key, init, [last], k);
      assert [last][1..] == [];
      assert s == init + [last];
    }
  }

  /** The sort orders by key descending, is a permutation, and keeps every key class in input order. */
  lemma SortSpec<T>(key: T -> Key, s: seq<T>)
    ensures SortedDesc(key, Sort(key, s))
    ensures multiset(Sort(key, s)) == multiset(s)
    ensures |Sort(key, s)| == |s|
    ensures forall k :: KeyClass(key, Sort(key, s), k) == KeyClass(key, s, k)
  {
    SortSorted(key, s);
    SortPermutes(key, s);
    forall k ensures KeyClass(key, Sort(key, s), k) == KeyClass(key, s, k) {
      SortStable(key, s, k);
    }
  }

  /** slice(0, n) */
  function Take<T>(s: seq<T>, n: nat): (r: seq<T>)
    ensures |r| == if n <= |s| then n else |s|
    ensures r == s[..|r|]
  {
    if n <= |s| then s[..n] else s
  }
}
