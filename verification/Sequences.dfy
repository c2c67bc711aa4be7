/** Totals and selections over sequences: the arithmetic every loop over rows comes down to. */
module Sequences {

  function Sum<T>(s: seq<T>, f: T -> real): real {
    if s == [] then 0.0 else Sum(s[..|s| - 1], f) + f(s[|s| - 1])
  }

  function Filter<T>(s: seq<T>, p: T -> bool): (r: seq<T>)
    ensures |r| <= |s|
  {
    if s == [] then [] else
      var rest := Filter(s[..|s| - 1], p);
      if p(s[|s| - 1]) then rest + [s[|s| - 1]] else rest
  }

  lemma {:induction false} SumConcat<T>(a: seq<T>, b: seq<T>, f: T -> real)
    ensures Sum(a + b, f) == Sum(a, f) + Sum(b, f)
  {
    if b == [] {
      assert a + b == a;
    } else {
      SumConcat(a, b[..|b| - 1], f);
      assert (a + b)[..|a + b| - 1] == a + b[..|b| - 1];
    }
  }

  lemma SumOne<T>(x: T, f: T -> real)
    ensures Sum([x], f) == f(x)
  {
    assert [x][..0] == [];
  }

  lemma SumPush<T>(s: seq<T>, x: T, f: T -> real)
    ensures Sum(s + [x], f) == Sum(s, f) + f(x)
  {
    assert (s + [x])[..|s|] == s;
  }

  /** One more element of a sequence being added up. */
  lemma SumTake<T>(s: seq<T>, i: nat, f: T -> real)
    requires i < |s|
    ensures Sum(s[..i + 1], f) == Sum(s[..i], f) + f(s[i])
  {
    assert s[..i + 1] == s[..i] + [s[i]];
    SumPush(s[..i], s[i], f);
  }

  lemma SumSplice<T>(a: seq<T>, x: T, b: seq<T>, f: T -> real)
    ensures Sum(a + [x] + b, f) == Sum(a + b, f) + f(x)
  {
    SumConcat(a + [x], b, f);
    SumConcat(a, [x], f);
    SumConcat(a, b, f);
    SumOne(x, f);
  }

  lemma {:induction false} SumNonNegative<T>(s: seq<T>, f: T -> real)
    requires forall x :: x in s ==> f(x) >= 0.0
    ensures Sum(s, f) >= 0.0
  {
    if s != [] {
      SumNonNegative(s[..|s| - 1], f);
      assert s[|s| - 1] in s;
    }
  }

  /** One non-negative term is at most the total. */
  lemma {:induction false} SumAtLeast<T>(s: seq<T>, x: T, f: T -> real)
    requires x in s
    requires forall y :: y in s ==> f(y) >= 0.0
    ensures Sum(s, f) >= f(x)
  {
    var rest, last := s[..|s| - 1], s[|s| - 1];
    assert s == rest + [last] && last in s;
    SumNonNegative(rest, f);
    if x in rest {
      SumAtLeast(rest, x, f);
    }
  }

  lemma {:induction false} SumZero<T>(s: seq<T>, f: T -> real)
    requires forall x :: x in s ==> f(x) == 0.0
    ensures Sum(s, f) == 0.0
  {
    if s != [] {
      SumZero(s[..|s| - 1], f);
      assert s[|s| - 1] in s;
    }
  }

  lemma {:induction false} SumSame<T>(s: seq<T>, f: T -> real, g: T -> real)
    requires forall x :: x in s ==> f(x) == g(x)
    ensures Sum(s, f) == Sum(s, g)
  {
    if s != [] {
      SumSame(s[..|s| - 1], f, g);
      assert s[|s| - 1] in s;
    }
  }

  lemma {:induction false} FilterConcat<T>(a: seq<T>, b: seq<T>, p: T -> bool)
    ensures Filter(a + b, p) == Filter(a, p) + Filter(b, p)
  {
    if b == [] {
      assert a + b == a;
    } else {
      FilterConcat(a, b[..|b| - 1], p);
      assert (a + b)[..|a + b| - 1] == a + b[..|b| - 1];
    }
  }

  /** One more element of a sequence being selected from. */
  lemma FilterTake<T>(s: seq<T>, i: nat, p: T -> bool)
    requires i < |s|
    ensures Filter(s[..i + 1], p) == Filter(s[..i], p) + (if p(s[i]) then [s[i]] else [])
  {
    assert s[..i + 1][..i] == s[..i];
  }

  lemma FilterOne<T>(x: T, p: T -> bool)
    ensures Filter([x], p) == if p(x) then [x] else []
  {
    assert [x][..0] == [];
  }

  lemma {:induction false} FilterMember<T>(s: seq<T>, p: T -> bool, x: T)
    ensures x in Filter(s, p) <==> x in s && p(x)
  {
    if s != [] {
      FilterMember(s[..|s| - 1], p, x);
      assert s == s[..|s| - 1] + [s[|s| - 1]];
    }
  }

  lemma FilterMembers<T>(s: seq<T>, p: T -> bool)
    ensures forall x :: x in Filter(s, p) <==> x in s && p(x)
  {
    forall x ensures x in Filter(s, p) <==> x in s && p(x) {
      FilterMember(s, p, x);
    }
  }

  /** Keeping nothing back when every element qualifies. */
  lemma {:induction false} FilterAll<T>(s: seq<T>, p: T -> bool)
    requires forall x :: x in s ==> p(x)
    ensures Filter(s, p) == s
  {
    if s != [] {
      FilterAll(s[..|s| - 1], p);
      assert s == s[..|s| - 1] + [s[|s| - 1]];
    }
  }

  lemma {:induction false} FilterNone<T>(s: seq<T>, p: T -> bool)
    requires forall x :: x in s ==> !p(x)
    ensures Filter(s, p) == []
  {
    if s != [] {
      FilterNone(s[..|s| - 1], p);
      assert s[|s| - 1] in s;
    }
  }

  /** Every total splits into the selected and the unselected part. */
  lemma {:induction false} SumPartition<T>(s: seq<T>, p: T -> bool, q: T -> bool, f: T -> real)
    requires forall x :: x in s ==> (p(x) <==> !q(x))
    ensures Sum(s, f) == Sum(Filter(s, p), f) + Sum(Filter(s, q), f)
  {
    if s != [] {
      var last := s[|s| - 1];
      var rest := s[..|s| - 1];
      assert last in s;
      SumPartition(rest, p, q, f);
      SumConcat(Filter(rest, p), [last], f);
      SumConcat(Filter(rest, q), [last], f);
      SumOne(last, f);
    }
  }

  lemma {:induction false} FilterSame<T>(s: seq<T>, p: T -> bool, q: T -> bool)
    requires forall x :: x in s ==> (p(x) <==> q(x))
    ensures Filter(s, p) == Filter(s, q)
  {
    if s != [] {
      FilterSame(s[..|s| - 1], p, q);
      assert s[|s| - 1] in s;
    }
  }

  lemma SumOfFilterAtMost<T>(s: seq<T>, p: T -> bool, f: T -> real)
    requires forall x :: x in s ==> f(x) >= 0.0
    ensures Sum(Filter(s, p), f) <= Sum(s, f)
  {
    var q := (x: T) => !p(x);
    SumPartition(s, p, q, f);
    forall x | x in Filter(s, q) ensures f(x) >= 0.0 {
      FilterMember(s, q, x);
    }
    SumNonNegative(Filter(s, q), f);
  }

  /** Replacing one element by another of the same weight leaves the total alone. */
  lemma SumUpdate<T>(s: seq<T>, i: nat, x: T, f: T -> real)
    requires i < |s| && f(x) == f(s[i])
    ensures Sum(s[i := x], f) == Sum(s, f)
  {
    assert s == s[..i] + [s[i]] + s[i + 1..];
    assert s[i := x] == s[..i] + [x] + s[i + 1..];
    SumSplice(s[..i], x, s[i + 1..], f);
    SumSplice(s[..i], s[i], s[i + 1..], f);
  }

  /** Every earlier element stands in a relation to every later one. */
  ghost predicate Pairwise<T>(s: seq<T>, r: (T, T) -> bool) {
    forall i, j | 0 <= i < j < |s| :: r(s[i], s[j])
  }

  function Splice<T>(s: seq<T>, k: nat, x: T): (h: seq<T>)
    requires k <= |s|
    ensures |h| == |s| + 1 && h[k] == x
  {
    s[..k] + [x] + s[k..]
  }

  lemma SpliceGains<T>(s: seq<T>, k: nat, x: T)
    requires k <= |s|
    ensures multiset(Splice(s, k, x)) == multiset(s) + multiset{x}
  {
    assert s == s[..k] + s[k..];
  }

  lemma SplicePairwise<T>(s: seq<T>, k: nat, x: T, r: (T, T) -> bool)
    requires k <= |s| && Pairwise(s, r)
    requires forall i | 0 <= i < k :: r(s[i], x)
    requires forall i | k <= i < |s| :: r(x, s[i])
    ensures Pairwise(Splice(s, k, x), r)
  {
    var h := Splice(s, k, x);
    forall i, j | 0 <= i < j < |h| ensures r(h[i], h[j]) {
      var a, b := if i < k then i else i - 1, if j < k then j else j - 1;
      if i != k && j != k {
        assert h[i] == s[a] && h[j] == s[b];
      } else if i == k {
        assert h[j] == s[b];
      } else {
        assert h[i] == s[a];
      }
    }
  }

  lemma {:induction false} FilterPairwise<T>(s: seq<T>, p: T -> bool, r: (T, T) -> bool)
    requires Pairwise(s, r)
    ensures Pairwise(Filter(s, p), r)
  {
    if s != [] {
      var rest, last := s[..|s| - 1], s[|s| - 1];
      var f := Filter(rest, p);
      FilterPairwise(rest, p, r);
      forall i | 0 <= i < |f| ensures r(f[i], last) {
        FilterMember(rest, p, f[i]);
        var j :| 0 <= j < |rest| && rest[j] == f[i];
        assert s[j] == f[i];
      }
    }
  }

  lemma {:induction false} FilterCommutes<T>(s: seq<T>, p: T -> bool, q: T -> bool)
    ensures Filter(Filter(s, p), q) == Filter(Filter(s, q), p)
  {
    if s != [] {
      var rest, last := s[..|s| - 1], s[|s| - 1];
      FilterCommutes(rest, p, q);
      FilterConcat(Filter(rest, p), [last], q);
      FilterConcat(Filter(rest, q), [last], p);
      FilterOne(last, p);
      FilterOne(last, q);
    }
  }

  /** A selection that refuses something is shorter. */
  lemma {:induction false} FilterShorter<T>(s: seq<T>, p: T -> bool, x: T)
    requires x in s && !p(x)
    ensures |Filter(s, p)| < |s|
  {
    var rest, last := s[..|s| - 1], s[|s| - 1];
    assert s == rest + [last];
    if x in rest {
      FilterShorter(rest, p, x);
    }
  }

  lemma FilterSplice<T>(a: seq<T>, x: T, b: seq<T>, p: T -> bool)
    ensures Filter(a + [x] + b, p) == Filter(a, p) + (if p(x) then [x] else []) + Filter(b, p)
  {
    FilterConcat(a + [x], b, p);
    FilterConcat(a, [x], p);
    FilterOne(x, p);
  }
}
