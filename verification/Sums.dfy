/** Sums over finite maps, and lists without repetition. */
module Sums {

  /** The sum of all values of a finite map. */
  ghost function Total<K(!new)>(m: map<K, nat>): nat
    decreases |m|
  {
    if m == map[] then 0
    else
      var k :| k in m;
      assert (m - {k}).Keys == m.Keys - {k};
      m[k] + Total(m - {k})
  }

  /** The sum does not depend on the order in which the entries are taken. */
  lemma {:induction false} TotalRemove<K(!new)>(m: map<K, nat>, k: K)
    requires k in m
    ensures Total(m) == m[k] + Total(m - {k})
    decreases |m|
  {
    var k0 :| k0 in m && Total(m) == m[k0] + Total(m - {k0});
    if k0 != k {
      var m0, m1 := m - {k0}, m - {k};
      assert m0.Keys == m.Keys - {k0} && m1.Keys == m.Keys - {k};
      TotalRemove(m0, k);
      TotalRemove(m1, k0);
      assert m0 - {k} == m1 - {k0};
    }
  }

  lemma TotalInsert<K(!new)>(m: map<K, nat>, k: K, v: nat)
    ensures k !in m ==> Total(m[k := v]) == Total(m) + v
    ensures k in m ==> Total(m[k := v]) + m[k] == Total(m) + v
  {
    TotalRemove(m[k := v], k);
    assert m[k := v] - {k} == m - {k};
    if k in m {
      TotalRemove(m, k);
    } else {
      assert m - {k} == m;
    }
  }

  lemma {:induction false} TotalZero<K(!new)>(m: map<K, nat>)
    ensures Total(m) == 0 <==> forall k :: k in m ==> m[k] == 0
    decreases |m|
  {
    if m != map[] {
      var k :| k in m && Total(m) == m[k] + Total(m - {k});
      assert (m - {k}).Keys == m.Keys - {k};
      TotalZero(m - {k});
      assert forall i :: i in m && i != k ==> i in m - {k} && (m - {k})[i] == m[i];
    }
  }

  /** Fewer keys and smaller values give a smaller sum; strictly, if one key or
      some value is strictly less. */
  lemma {:induction false} TotalMonotone<K(!new)>(m: map<K, nat>, m': map<K, nat>)
    requires m'.Keys <= m.Keys && forall k :: k in m' ==> m'[k] <= m[k]
    ensures Total(m') <= Total(m)
    ensures (exists k :: k in m && (if k in m' then m'[k] < m[k] else m[k] > 0)) ==> Total(m') < Total(m)
    decreases |m|
  {
    if m != map[] {
      var k :| k in m && ((exists x :: x in m && (if x in m' then m'[x] < m[x] else m[x] > 0))
                          ==> if k in m' then m'[k] < m[k] else m[k] > 0);
      TotalRemove(m, k);
      var n := m - {k};
      assert n.Keys == m.Keys - {k};
      TotalMonotone(n, m' - {k});
      if k in m' {
        TotalRemove(m', k);
      } else {
        assert m' - {k} == m';
      }
    } else {
      assert m' == m;
    }
  }

  /** The entries of a map at the given keys. */
  function Only<K, V>(m: map<K, V>, d: set<K>): map<K, V> {
    map k | k in m && k in d :: m[k]
  }

  lemma OnlyRemove<V>(m: map<nat, V>, d: set<nat>, k: nat)
    requires k in m
    ensures var n := m - {k};
      if k in d then k in Only(m, d) && Only(m, d)[k] == m[k] && Only(m, d) - {k} == Only(n, d) && m - d == n - d
      else k in m - d && (m - d)[k] == m[k] && Only(m, d) == Only(n, d) && m - d - {k} == n - d
  {
  }

  lemma {:induction false} TotalSplit(m: map<nat, nat>, d: set<nat>)
    ensures Total(m) == Total(Only(m, d)) + Total(m - d)
    decreases |m|
  {
    if m == map[] {
      assert Only(m, d) == map[] && m - d == map[];
    } else {
      hide Total, Only;
      var k :| k in m;
      var n := m - {k};
      assert n.Keys == m.Keys - {k};
      TotalRemove(m, k);
      TotalSplit(n, d);
      OnlyRemove(m, d, k);
      if k in d {
        TotalRemove(Only(m, d), k);
      } else {
        TotalRemove(m - d, k);
      }
    }
  }

  /** No value occurs at two positions of the list. */
  ghost predicate NoDup<T>(s: seq<T>) {
    forall i, j :: 0 <= i < j < |s| ==> s[i] != s[j]
  }

  /** The list without the first occurrence of x. */
  function Without<T(==)>(s: seq<T>, x: T): (r: seq<T>) {
    if s == [] then []
    else if s[0] == x then s[1..]
    else [s[0]] + Without(s[1..], x)
  }

  /** Erasing an element of a repetition-free list removes that element,
      keeps the others, and is a splice at the element's position. */
  lemma {:induction false} WithoutSplice<T>(s: seq<T>, x: T) returns (k: nat)
    requires x in s
    ensures k < |s| && s[k] == x
    ensures Without(s, x) == s[..k] + s[k + 1..]
  {
    if s[0] == x {
      k := 0;
      assert s[..0] + s[1..] == s[1..];
    } else {
      var k1 := WithoutSplice(s[1..], x);
      k := k1 + 1;
      assert [s[0]] + (s[1..][..k1] + s[1..][k1 + 1..]) == s[..k] + s[k + 1..];
    }
  }

  lemma {:induction false} WithoutAbsent<T>(s: seq<T>, x: T)
    requires x !in s
    ensures Without(s, x) == s
  {
    if s != [] {
      WithoutAbsent(s[1..], x);
    }
  }

  lemma WithoutNoDup<T>(s: seq<T>, x: T)
    requires NoDup(s)
    ensures NoDup(Without(s, x))
    ensures forall y :: y in Without(s, x) <==> y in s && y != x
    ensures x in s ==> |Without(s, x)| == |s| - 1
  {
    if x in s {
      var k := WithoutSplice(s, x);
      var r := s[..k] + s[k + 1..];
      forall y ensures y in r <==> y in s && y != x {
        if y in s && y != x {
          var i :| 0 <= i < |s| && s[i] == y;
          assert r[if i < k then i else i - 1] == y;
        }
      }
    } else {
      WithoutAbsent(s, x);
    }
  }

  function Elements<T>(s: seq<T>): set<T> {
    set x | x in s
  }

  lemma ElementsSize<T>(s: seq<T>)
    requires NoDup(s)
    ensures |Elements(s)| == |s|
  {
    NoDupSize(s);
  }

  /** A repetition-free list has as many elements as it has members. */
  lemma {:induction false} NoDupSize<T>(s: seq<T>)
    requires NoDup(s)
    ensures |set x | x in s| == |s|
  {
    if s != [] {
      NoDupSize(s[1..]);
      assert (set x | x in s) == {s[0]} + set x | x in s[1..];
    }
  }
}
