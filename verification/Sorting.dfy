/** Ascending order by an integer key, and the stable sort that reaches it. */
module Sorting {
  import opened Sequences

  ghost predicate Ascending<T>(s: seq<T>, key: T -> int) {
    forall i, j | 0 <= i < j < |s| :: key(s[i]) <= key(s[j])
  }

  ghost predicate AllBy<T>(s: seq<T>, key: T -> int, bound: int) {
    forall i | 0 <= i < |s| :: key(s[i]) <= bound
  }

  function InsertBy<T>(sorted: seq<T>, key: T -> int, x: T): seq<T> {
    var n := |sorted|;
    if n == 0 || key(sorted[n - 1]) <= key(x) then sorted + [x]
    else InsertBy(sorted[..n - 1], key, x) + [sorted[n - 1]]
  }

  /** Equal keys keep their order. */
  function SortBy<T>(s: seq<T>, key: T -> int): seq<T> {
    if s == [] then [] else InsertBy(SortBy(s[..|s| - 1], key), key, s[|s| - 1])
  }

  lemma {:induction false} InsertSums<T>(sorted: seq<T>, key: T -> int, x: T, f: T -> real)
    ensures Sum(InsertBy(sorted, key, x), f) == Sum(sorted, f) + f(x)
  {
    var n := |sorted|;
    if n == 0 || key(sorted[n - 1]) <= key(x) {
      SumConcat(sorted, [x], f);
      SumOne(x, f);
    } else {
      InsertSums(sorted[..n - 1], key, x, f);
      SumConcat(InsertBy(sorted[..n - 1], key, x), [sorted[n - 1]], f);
      SumOne(sorted[n - 1], f);
    }
  }

  /** Sorting changes no total. */
  lemma {:induction false} SortSums<T>(s: seq<T>, key: T -> int, f: T -> real)
    ensures Sum(SortBy(s, key), f) == Sum(s, f)
  {
    if s != [] {
      SortSums(s[..|s| - 1], key, f);
      InsertSums(SortBy(s[..|s| - 1], key), key, s[|s| - 1], f);
    }
  }

  lemma {:induction false} InsertBounded<T>(sorted: seq<T>, key: T -> int, x: T, bound: int)
    requires AllBy(sorted, key, bound) && key(x) <= bound
    ensures AllBy(InsertBy(sorted, key, x), key, bound)
  {
    var n := |sorted|;
    if n > 0 && key(sorted[n - 1]) > key(x) {
      InsertBounded(sorted[..n - 1], key, x, bound);
    }
  }

  /** A sequence is in order when all but its last is, and none comes after the last. */
  lemma PushAscending<T>(s: seq<T>, key: T -> int, last: T)
    ensures Ascending(s + [last], key) <==> Ascending(s, key) && AllBy(s, key, key(last))
  {
    var all := s + [last];
    if Ascending(all, key) {
      forall i, j | 0 <= i < j < |s| ensures key(s[i]) <= key(s[j]) {
        assert key(all[i]) <= key(all[j]);
      }
      forall i | 0 <= i < |s| ensures key(s[i]) <= key(last) {
        assert key(all[i]) <= key(all[|s|]);
      }
    }
  }

  lemma {:induction false} InsertAscends<T>(sorted: seq<T>, key: T -> int, x: T)
    requires Ascending(sorted, key)
    ensures Ascending(InsertBy(sorted, key, x), key)
  {
    var n := |sorted|;
    if n > 0 {
      var rest, last := sorted[..n - 1], sorted[n - 1];
      assert sorted == rest + [last];
      PushAscending(rest, key, last);
      if key(last) > key(x) {
        InsertAscends(rest, key, x);
        InsertBounded(rest, key, x, key(last));
        PushAscending(InsertBy(rest, key, x), key, last);
      } else {
        forall i | 0 <= i < n ensures key(sorted[i]) <= key(x) {
          assert i < n - 1 ==> key(sorted[i]) <= key(sorted[n - 1]);
        }
        PushAscending(sorted, key, x);
      }
    }
  }

  lemma {:induction false} InsertKeeps<T>(sorted: seq<T>, key: T -> int, x: T)
    ensures multiset(InsertBy(sorted, key, x)) == multiset(sorted) + multiset{x}
  {
    var n := |sorted|;
    if n > 0 && key(sorted[n - 1]) > key(x) {
      assert sorted == sorted[..n - 1] + [sorted[n - 1]];
      InsertKeeps(sorted[..n - 1], key, x);
    }
  }

  /** The sorted sequence holds the same elements, in order. */
  lemma {:induction false} SortSorts<T>(s: seq<T>, key: T -> int)
    ensures Ascending(SortBy(s, key), key) && multiset(SortBy(s, key)) == multiset(s)
  {
    if s != [] {
      var rest, last := s[..|s| - 1], s[|s| - 1];
      assert s == rest + [last];
      SortSorts(rest, key);
      InsertAscends(SortBy(rest, key), key, last);
      InsertKeeps(SortBy(rest, key), key, last);
    }
  }

  // ---- what a stable sort keeps ----

  lemma {:induction false} SortedStays<T>(s: seq<T>, key: T -> int)
    requires Ascending(s, key)
    ensures SortBy(s, key) == s
  {
    if s != [] {
      var rest, last := s[..|s| - 1], s[|s| - 1];
      assert s == rest + [last];
      PushAscending(rest, key, last);
      SortedStays(rest, key);
    }
  }

  /** Earlier by the major key, or not later by the minor one. */
  function Lex<T>(major: T -> int, minor: T -> int): (T, T) -> bool {
    (a: T, b: T) => major(a) < major(b) || (major(a) == major(b) && minor(a) <= minor(b))
  }

  lemma PushPairwise<T>(s: seq<T>, last: T, r: (T, T) -> bool)
    requires Pairwise(s, r) && forall x | x in s :: r(x, last)
    ensures Pairwise(s + [last], r)
  {
    var all := s + [last];
    forall i, j | 0 <= i < j < |all| ensures r(all[i], all[j]) {
      if j < |s| {
        assert all[i] == s[i] && all[j] == s[j];
      } else {
        assert all[i] == s[i] && s[i] in s && all[j] == last;
      }
    }
  }

  /** What is said of every element and the inserted one is said of the whole insertion. */
  lemma InsertedAll<T>(sorted: seq<T>, key: T -> int, x: T, last: T, r: (T, T) -> bool)
    requires r(x, last) && forall y | y in sorted :: r(y, last)
    ensures forall y | y in InsertBy(sorted, key, x) :: r(y, last)
  {
    InsertKeeps(sorted, key, x);
    forall y | y in InsertBy(sorted, key, x) ensures r(y, last) {
      assert y in multiset(InsertBy(sorted, key, x));
    }
  }

  lemma PairwiseLast<T>(rest: seq<T>, last: T, r: (T, T) -> bool)
    requires Pairwise(rest + [last], r)
    ensures Pairwise(rest, r) && forall y | y in rest :: r(y, last)
  {
    var s := rest + [last];
    forall i, j | 0 <= i < j < |rest| ensures r(rest[i], rest[j]) {
      assert r(s[i], s[j]);
    }
    forall y | y in rest ensures r(y, last) {
      var i :| 0 <= i < |rest| && rest[i] == y;
      assert r(s[i], s[|rest|]);
    }
  }

  lemma LastIsLargest<T>(sorted: seq<T>, key: T -> int, x: T)
    requires Ascending(sorted, key) && (sorted != [] ==> key(sorted[|sorted| - 1]) <= key(x))
    ensures forall y | y in sorted :: key(y) <= key(x)
  {
    forall y | y in sorted ensures key(y) <= key(x) {
      var i :| 0 <= i < |sorted| && sorted[i] == y;
      assert i < |sorted| - 1 ==> key(sorted[i]) <= key(sorted[|sorted| - 1]);
    }
  }

  lemma {:induction false} InsertPairwise<T>(sorted: seq<T>, key: T -> int, x: T, r: (T, T) -> bool)
    requires Ascending(sorted, key) && Pairwise(sorted, r)
    requires forall y | y in sorted :: if key(y) <= key(x) then r(y, x) else r(x, y)
    ensures Pairwise(InsertBy(sorted, key, x), r)
  {
    var n := |sorted|;
    if n > 0 && key(sorted[n - 1]) > key(x) {
      var rest, last := sorted[..n - 1], sorted[n - 1];
      assert sorted == rest + [last];
      PairwiseLast(rest, last, r);
      PushAscending(rest, key, last);
      InsertPairwise(rest, key, x, r);
      InsertedAll(rest, key, x, last, r);
      PushPairwise(InsertBy(rest, key, x), last, r);
    } else {
      LastIsLargest(sorted, key, x);
      PushPairwise(sorted, x, r);
    }
  }

  /** Sorting by one key what another has ordered orders by both. */
  lemma {:induction false} SortLex<T>(s: seq<T>, major: T -> int, minor: T -> int)
    requires Ascending(s, minor)
    ensures Pairwise(SortBy(s, major), Lex(major, minor))
  {
    if s != [] {
      var rest, last := s[..|s| - 1], s[|s| - 1];
      assert s == rest + [last];
      PushAscending(rest, minor, last);
      SortLex(rest, major, minor);
      SortSorts(rest, major);
      forall y | y in SortBy(rest, major) ensures minor(y) <= minor(last) {
        assert y in multiset(rest);
      }
      InsertPairwise(SortBy(rest, major), major, last, Lex(major, minor));
    }
  }

  lemma LastKept<T>(sorted: seq<T>, key: T -> int, p: T -> bool)
    requires Ascending(sorted, key) && Filter(sorted, p) != []
    ensures key(Filter(sorted, p)[|Filter(sorted, p)| - 1]) <= key(sorted[|sorted| - 1])
  {
    var last := Filter(sorted, p)[|Filter(sorted, p)| - 1];
    FilterMember(sorted, p, last);
    var i :| 0 <= i < |sorted| && sorted[i] == last;
    assert i < |sorted| - 1 ==> key(sorted[i]) <= key(sorted[|sorted| - 1]);
  }

  lemma {:induction false} InsertFilter<T>(sorted: seq<T>, key: T -> int, x: T, p: T -> bool)
    requires Ascending(sorted, key)
    ensures Filter(InsertBy(sorted, key, x), p)
            == if p(x) then InsertBy(Filter(sorted, p), key, x) else Filter(sorted, p)
  {
    var n := |sorted|;
    if n > 0 && key(sorted[n - 1]) > key(x) {
      var rest, last := sorted[..n - 1], sorted[n - 1];
      InsertFilter(rest, key, x, p);
      FilterConcat(InsertBy(rest, key, x), [last], p);
      FilterOne(last, p);
      assert (Filter(rest, p) + [last])[..|Filter(rest, p)|] == Filter(rest, p);
    } else {
      FilterConcat(sorted, [x], p);
      FilterOne(x, p);
      if Filter(sorted, p) != [] {
        LastKept(sorted, key, p);
      }
    }
  }

  /** Selecting and sorting commute: equal keys keep their order. */
  lemma {:induction false} SortFilter<T>(s: seq<T>, key: T -> int, p: T -> bool)
    ensures Filter(SortBy(s, key), p) == SortBy(Filter(s, p), key)
  {
    if s != [] {
      var rest, last := s[..|s| - 1], s[|s| - 1];
      SortFilter(rest, key, p);
      SortSorts(rest, key);
      InsertFilter(SortBy(rest, key), key, last, p);
      assert (Filter(rest, p) + [last])[..|Filter(rest, p)|] == Filter(rest, p);
    }
  }
}
