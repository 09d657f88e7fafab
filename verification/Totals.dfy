/** Sums of integer weights over finite maps, and the counting facts about finite
    sets that the ledger's indexes need. */
module Totals {

  /** The sum of all values of m. */
  ghost function Total<T(!new)>(m: map<T, int>): (s: int)
    decreases |m|
  {
    if m == map[] then 0
    else
      var k :| k in m;
      assert |m - {k}| < |m| by { assert (m - {k}).Keys == m.Keys - {k}; }
      m[k] + Total(m - {k})
  }

  /** The sum does not depend on which key is taken out first. */
  lemma {:induction false} TotalTake<T(!new)>(m: map<T, int>, k: T)
    requires k in m
    ensures Total(m) == m[k] + Total(m - {k})
    decreases |m|
  {
    var j :| j in m && Total(m) == m[j] + Total(m - {j});
    if j != k {
      assert (m - {j}).Keys == m.Keys - {j};
      assert (m - {k}).Keys == m.Keys - {k};
      TotalTake(m - {j}, k);
      TotalTake(m - {k}, j);
      assert m - {j} - {k} == m - {k} - {j};
    }
  }

  lemma TotalInsert<T(!new)>(m: map<T, int>, k: T, v: int)
    requires k !in m
    ensures Total(m[k := v]) == Total(m) + v
  {
    TotalTake(m[k := v], k);
    assert m[k := v] - {k} == m;
  }

  /** Pointwise smaller non-negative weights on fewer keys sum to no more. */
  lemma {:induction false} TotalMonotone<T(!new)>(m: map<T, int>, n: map<T, int>)
    requires m.Keys <= n.Keys
    requires forall k :: k in m ==> m[k] <= n[k]
    requires forall k :: k in n ==> 0 <= n[k]
    ensures Total(m) <= Total(n)
    decreases |n|
  {
    if n == map[] {
      assert m == map[];
    } else {
      var k :| k in n;
      TotalTake(n, k);
      assert (n - {k}).Keys == n.Keys - {k};
      TotalMonotone(m - {k}, n - {k});
      if k in m {
        TotalTake(m, k);
      } else {
        assert m - {k} == m;
      }
    }
  }

  /** Pointwise sums add up. */
  lemma {:induction false} TotalAdd<T(!new)>(m: map<T, int>, n: map<T, int>, p: map<T, int>)
    requires m.Keys == n.Keys == p.Keys
    requires forall k :: k in p ==> p[k] == m[k] + n[k]
    ensures Total(p) == Total(m) + Total(n)
    decreases |p|
  {
    if p == map[] {
      assert m == map[] && n == map[];
    } else {
      var k :| k in p;
      TotalTake(p, k);
      TotalTake(m, k);
      TotalTake(n, k);
      assert (p - {k}).Keys == p.Keys - {k};
      TotalAdd(m - {k}, n - {k}, p - {k});
    }
  }

  lemma {:induction false} SubsetCard<T>(a: set<T>, b: set<T>)
    requires a <= b
    ensures |a| <= |b|
  {
    assert b == a + (b - a);
  }

  /** An injective image has as many elements as its domain. */
  lemma {:induction false} ImageCard<S(!new), T(!new)>(m: map<S, T>)
    requires forall x, y :: x in m && y in m && m[x] == m[y] ==> x == y
    ensures |m.Values| == |m.Keys|
    decreases |m|
  {
    if m != map[] {
      var k :| k in m;
      assert (m - {k}).Keys == m.Keys - {k};
      ImageCard(m - {k});
      var rest := m - {k};
      assert m.Values == rest.Values + {m[k]} by {
        forall v | v in m.Values ensures v in rest.Values + {m[k]} {
          var x :| x in m && m[x] == v;
          assert x == k || (x in rest && rest[x] == v);
        }
      }
      assert m[k] !in rest.Values;
    } else {
      assert m.Values == {};
    }
  }

  lemma InjectionCard<S(!new), T(!new)>(m: map<S, T>, s: set<T>)
    requires forall x :: x in m ==> m[x] in s
    requires forall x, y :: x in m && y in m && m[x] == m[y] ==> x == y
    ensures |m.Keys| <= |s|
  {
    ImageCard(m);
    assert m.Values <= s;
    SubsetCard(m.Values, s);
  }

  /** Distinct members of a set that are listed by distinct numbers are no more than the set. */
  lemma ListedCard<T(!new)>(m: map<int, T>, s: set<T>)
    requires forall x :: x in m ==> m[x] in s
    requires forall x, y :: x in m && y in m && x < y ==> m[x] != m[y]
    ensures |m.Keys| <= |s|
  {
    forall x, y | x in m && y in m && m[x] == m[y] ensures x == y {
      assert !(x < y) && !(y < x);
    }
    InjectionCard(m, s);
  }

  // ---------- sequences ----------

  function Sum(s: seq<int>): (n: int)
  {
    if |s| == 0 then 0 else s[0] + Sum(s[1..])
  }

  lemma {:induction false} SumAppend(s: seq<int>, x: int)
    ensures Sum(s + [x]) == Sum(s) + x
    decreases |s|
  {
    if |s| == 0 {
      assert s + [x] == [x] && [x][1..] == [];
    } else {
      assert (s + [x])[1..] == s[1..] + [x];
      SumAppend(s[1..], x);
    }
  }
}
