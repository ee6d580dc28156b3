/** Finite sums over maps, and duplicate-free sequences. */
module Sums {
  /** The sum of all values of a map, whatever its keys are. */
  ghost function Sum<K>(m: map<K, nat>): nat
  {
    if m == map[] then 0 else
      var k :| k in m;
      m[k] + Sum(m - {k})
  }

  lemma {:induction false} SumSplit<K>(m: map<K, nat>, k: K)
    requires k in m
    ensures Sum(m) == m[k] + Sum(m - {k})
    decreases |m|
  {
    var j :| j in m && Sum(m) == m[j] + Sum(m - {j});
    if j != k {
      SumSplit(m - {j}, k);
      SumSplit(m - {k}, j);
      assert m - {j} - {k} == m - {k} - {j};
    }
  }

  lemma SumInsert<K>(m: map<K, nat>, k: K, v: nat)
    ensures Sum(m[k := v]) == Sum(m) + v - if k in m then m[k] else 0
  {
    var n := m[k := v];
    SumSplit(n, k);
    assert n - {k} == m - {k};
    if k in m {
      SumSplit(m, k);
    } else {
      assert m - {k} == m;
    }
  }

  /** If a[k] <= b[k] + e[k] for every key, the same holds for the sums. */
  lemma {:induction false} SumPointwise<K>(a: map<K, nat>, b: map<K, nat>, e: map<K, nat>)
    requires a.Keys == b.Keys == e.Keys
    requires forall k :: k in a ==> a[k] <= b[k] + e[k]
    ensures Sum(a) <= Sum(b) + Sum(e)
    decreases |a|
  {
    if a == map[] {
      assert b == map[] && e == map[];
    } else {
      var k :| k in a;
      SumSplit(a, k);
      SumSplit(b, k);
      SumSplit(e, k);
      SumPointwise(a - {k}, b - {k}, e - {k});
    }
  }

  /** c copies of x; kept as a sum so that sums over maps stay linear. */
  function Times(c: nat, x: nat): nat { if c == 0 then 0 else x + Times(c - 1, x) }

  lemma {:induction false} TimesIsProduct(c: nat, x: nat)
    ensures Times(c, x) == c * x
  {
    if c > 0 {
      TimesIsProduct(c - 1, x);
    }
  }

  lemma {:induction false} Distribute(c: nat, x: nat, y: nat)
    ensures Times(c, x + y) == Times(c, x) + Times(c, y)
  {
    if c > 0 {
      Distribute(c - 1, x, y);
    }
  }

  lemma {:induction false} TimesZero(c: nat)
    ensures Times(c, 0) == 0
  {
    if c > 0 {
      TimesZero(c - 1);
    }
  }

  function Scaled<K>(c: nat, m: map<K, nat>): map<K, nat> { map k | k in m :: Times(c, m[k]) }

  lemma ScaledStep<K>(c: nat, m: map<K, nat>, k: K)
    requires k in m
    requires Sum(Scaled(c, m - {k})) == Times(c, Sum(m - {k}))
    ensures Sum(Scaled(c, m)) == Times(c, Sum(m))
  {
    SumSplit(m, k);
    var scaled := Scaled(c, m);
    SumSplit(scaled, k);
    assert scaled - {k} == Scaled(c, m - {k});
    ghost var rest, whole := Sum(m - {k}), Sum(m);
    Distribute(c, m[k], rest);
    assert whole == m[k] + rest;
    assert Sum(scaled) == Times(c, m[k]) + Times(c, rest);
  }

  lemma {:induction false} SumScaled<K>(c: nat, m: map<K, nat>)
    ensures Sum(Scaled(c, m)) == Times(c, Sum(m))
    decreases m.Keys
  {
    if m == map[] {
      TimesZero(c);
      assert Scaled(c, m) == map[];
    } else {
      var k :| k in m;
      SumScaled(c, m - {k});
      ScaledStep(c, m, k);
    }
  }

  /** A map with fewer keys and no larger values has no larger sum. */
  lemma {:induction false} SumSubset<K>(a: map<K, nat>, b: map<K, nat>)
    requires a.Keys <= b.Keys
    requires forall k :: k in a ==> a[k] <= b[k]
    ensures Sum(a) <= Sum(b)
    decreases |a|
  {
    if a != map[] {
      var k :| k in a;
      SumSplit(a, k);
      SumSplit(b, k);
      SumSubset(a - {k}, b - {k});
    }
  }

  lemma SumMember<K>(m: map<K, nat>, k: K)
    requires k in m
    ensures m[k] <= Sum(m)
  {
    SumSplit(m, k);
  }

  predicate NoDup<T(==)>(s: seq<T>) { forall i, j :: 0 <= i < j < |s| ==> s[i] != s[j] }

  /** `iter().position(..)` followed by `remove(index)`: the first occurrence goes. */
  function Without<T(==)>(s: seq<T>, x: T): seq<T>
  {
    if s == [] then [] else if s[0] == x then s[1..] else [s[0]] + Without(s[1..], x)
  }

  lemma {:induction false} WithoutNoDup<T>(s: seq<T>, x: T)
    requires NoDup(s) && x in s
    ensures NoDup(Without(s, x))
    ensures |Without(s, x)| == |s| - 1
    ensures forall y :: y in Without(s, x) <==> y in s && y != x
  {
    assert s == [s[0]] + s[1..];
    if s[0] != x {
      WithoutNoDup(s[1..], x);
      var t := Without(s[1..], x);
      assert s[0] !in t;
      assert Without(s, x) == [s[0]] + t;
    }
  }

  lemma AppendNoDup<T>(s: seq<T>, x: T)
    requires NoDup(s) && x !in s
    ensures NoDup(s + [x])
  {
  }

  ghost function Elements<T>(s: seq<T>): set<T> { set x | x in s }

  lemma {:induction false} NoDupSize<T>(s: seq<T>)
    requires NoDup(s)
    ensures |Elements(s)| == |s|
  {
    if s == [] {
      assert Elements(s) == {};
    } else {
      var t := s[..|s| - 1];
      NoDupSize(t);
      assert s == t + [s[|s| - 1]];
      assert Elements(s) == Elements(t) + {s[|s| - 1]};
    }
  }

  lemma SubsetSize<T>(a: set<T>, b: set<T>)
    requires a <= b
    ensures |a| <= |b|
  {
    assert b == a + (b - a);
  }
}
