/** Sums over finite maps, the meaning of the repository's SQL `SUM` and `COUNT`. */
module Sums {

  ghost function Sum<K(!new)>(m: map<K, int>): int {
    if m == map[] then 0 else
      var k :| k in m;
      m[k] + Sum(m - {k})
  }

  /** The order in which the rows are added does not matter. */
  lemma {:induction false} SumSplit<K(!new)>(m: map<K, int>, k: K)
    requires k in m
    ensures Sum(m) == m[k] + Sum(m - {k})
    decreases |m|
  {
    var c :| c in m && Sum(m) == m[c] + Sum(m - {c});
    if c != k {
      SumSplit(m - {c}, k);
      SumSplit(m - {k}, c);
      assert m - {c} - {k} == m - {k} - {c};
    }
  }

  lemma {:induction false} SumNonNegative<K(!new)>(m: map<K, nat>)
    ensures Sum(m) >= 0
    decreases |m|
  {
    if m != map[] {
      var k :| k in m && Sum(m) == m[k] + Sum(m - {k});
      SumNonNegative(m - {k});
    }
  }

  /** A row by row bound is a bound on the sums. */
  lemma {:induction false} SumBounded<K(!new)>(m: map<K, int>, n: map<K, int>)
    requires m.Keys == n.Keys
    requires forall k :: k in m ==> m[k] <= n[k]
    ensures Sum(m) <= Sum(n)
    decreases |n|
  {
    if n == map[] {
      assert m == map[];
    } else {
      var k :| k in n;
      SumSplit(n, k);
      SumSplit(m, k);
      SumBounded(m - {k}, n - {k});
    }
  }

  function Scale(n: int, factor: nat): int {
    n * factor
  }

  function Times<K>(m: map<K, int>, factor: nat): map<K, int> {
    map k | k in m :: Scale(m[k], factor)
  }

  lemma TimesSplit<K>(m: map<K, int>, k: K, factor: nat)
    requires k in m
    ensures k in Times(m, factor) && Times(m, factor)[k] == Scale(m[k], factor)
    ensures Times(m, factor) - {k} == Times(m - {k}, factor)
  {
    hide Scale;
  }

  lemma TimesNothing<K(!new)>(m: map<K, int>, factor: nat)
    requires m == map[]
    ensures Sum(Times(m, factor)) == Scale(Sum(m), factor)
  {
    assert Times(m, factor) == map[];
    assert Sum(m) == 0;
  }

  lemma {:induction false} SumTimes<K(!new)>(m: map<K, int>, factor: nat)
    ensures Sum(Times(m, factor)) == Scale(Sum(m), factor)
    decreases |m|
  {
    if m == map[] {
      TimesNothing(m, factor);
    } else {
      hide *;
      var k :| k in m;
      SumSplit(m, k);
      TimesSplit(m, k, factor);
      SumSplit(Times(m, factor), k);
      SumTimes(m - {k}, factor);
      Distribute(m[k], Sum(m - {k}), factor);
    }
  }

  lemma Distribute(a: int, b: int, factor: nat)
    ensures Scale(a + b, factor) == Scale(a, factor) + Scale(b, factor)
  {
  }

  /** Rows that add nothing may be left out. */
  lemma {:induction false} SumOfPart<K(!new)>(m: map<K, int>, part: map<K, int>)
    requires part.Keys <= m.Keys
    requires forall k :: k in m ==> m[k] == if k in part then part[k] else 0
    ensures Sum(m) == Sum(part)
    decreases |m|
  {
    if m == map[] {
      assert part == map[];
    } else {
      var k :| k in m;
      SumSplit(m, k);
      if k in part {
        SumSplit(part, k);
        SumOfPart(m - {k}, part - {k});
      } else {
        SumOfPart(m - {k}, part);
      }
    }
  }

  /** A sum of ones is a count. */
  lemma {:induction false} SumOfOnes<K(!new)>(m: map<K, int>, counted: set<K>)
    requires counted <= m.Keys
    requires forall k :: k in m ==> m[k] == if k in counted then 1 else 0
    ensures Sum(m) == |counted|
    decreases |m|
  {
    if m == map[] {
      assert counted == {};
    } else {
      var k :| k in m;
      SumSplit(m, k);
      SumOfOnes(m - {k}, counted - {k});
    }
  }
}
