/** Sums over sequences and finite maps. */
module Sums {

  function SumBy<T>(w: T -> nat, s: seq<T>): nat {
    if s == [] then 0 else SumBy(w, s[..|s| - 1]) + w(s[|s| - 1])
  }

  lemma {:induction false} SumByConcat<T>(w: T -> nat, s: seq<T>, t: seq<T>)
    ensures SumBy(w, s + t) == SumBy(w, s) + SumBy(w, t)
    decreases |t|
  {
    if t == [] {
      assert s + t == s;
    } else {
      var n := |t| - 1;
      assert (s + t)[..|s + t| - 1] == s + t[..n];
      SumByConcat(w, s, t[..n]);
    }
  }

  lemma {:induction false} SumByMonotone<T(!new)>(w: T -> nat, v: T -> nat, s: seq<T>)
    requires forall x :: w(x) <= v(x)
    ensures SumBy(w, s) <= SumBy(v, s)
    decreases |s|
  {
    if s != [] {
      SumByMonotone(w, v, s[..|s| - 1]);
    }
  }

  lemma {:induction false} SumByRemove<T>(w: T -> nat, s: seq<T>, i: nat)
    requires i < |s|
    ensures SumBy(w, s) == SumBy(w, s[..i] + s[i + 1..]) + w(s[i])
  {
    assert s == s[..i + 1] + s[i + 1..];
    assert s[..i + 1][..i] == s[..i];
    SumByConcat(w, s[..i + 1], s[i + 1..]);
    SumByConcat(w, s[..i], s[i + 1..]);
  }

  lemma RemoveAt<T>(t: seq<T>, i: nat)
    requires i < |t|
    ensures multiset(t[..i] + t[i + 1..]) == multiset(t) - multiset{t[i]}
  {
    assert t == t[..i] + ([t[i]] + t[i + 1..]);
    assert multiset(t) == multiset(t[..i]) + multiset([t[i]]) + multiset(t[i + 1..]);
  }

  /** The order of the summands does not matter. */
  lemma {:induction false} SumByPermuted<T>(w: T -> nat, s: seq<T>, t: seq<T>)
    requires multiset(s) == multiset(t)
    ensures SumBy(w, s) == SumBy(w, t)
    decreases |s|
  {
    if s == [] {
      assert |t| == |multiset(t)| == |multiset(s)| == 0;
    } else {
      var n := |s| - 1;
      assert s[n] in multiset(s);
      var i :| 0 <= i < |t| && t[i] == s[n];
      RemoveAt(t, i);
      RemoveAt(s, n);
      assert s[..n] + s[n + 1..] == s[..n];
      SumByPermuted(w, s[..n], t[..i] + t[i + 1..]);
      SumByRemove(w, t, i);
    }
  }

  ghost function SumMap<K>(m: map<K, nat>): nat {
    if m == map[] then 0
    else
      var k :| k in m;
      m[k] + SumMap(m - {k})
  }

  lemma {:induction false} SumMapRemove<K>(m: map<K, nat>, k: K)
    requires k in m
    ensures SumMap(m) == m[k] + SumMap(m - {k})
    decreases |m|
  {
    var j :| j in m && SumMap(m) == m[j] + SumMap(m - {j});
    if j != k {
      SumMapRemove(m - {j}, k);
      SumMapRemove(m - {k}, j);
      assert m - {j} - {k} == m - {k} - {j};
    }
  }

  /** If f sends the keys of m injectively to keys of t with at least the same value, the sum of m is at most that of
      t. */
  lemma {:induction false} SumMapInjection<K, L>(m: map<K, nat>, f: map<K, L>, t: map<L, nat>)
    requires forall k :: k in m ==> k in f && f[k] in t && m[k] <= t[f[k]]
    requires forall k, j :: k in m && j in m && k != j ==> f[k] != f[j]
    ensures SumMap(m) <= SumMap(t)
    decreases |m|
  {
    if m != map[] {
      var k :| k in m;
      SumMapInjection(m - {k}, f, t - {f[k]});
      SumMapRemove(m, k);
      SumMapRemove(t, f[k]);
    }
  }

  lemma SubsetSize<T>(s: set<T>, t: set<T>)
    requires s <= t
    ensures |s| <= |t|
  {
    assert t == s + (t - s);
  }
}
