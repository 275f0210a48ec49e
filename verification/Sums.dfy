/** Weighted sums over finite maps and over sequences, with the effect of one update. */
module Sums {
  /** The total weight of the values of `m`. */
  ghost function Sum<K, V>(m: map<K, V>, w: V -> nat): nat {
    if m == map[] then 0 else
      var k :| k in m;
      w(m[k]) + Sum(m - {k}, w)
  }

  /** The sum does not depend on the order in which keys are taken out. */
  lemma {:induction false} SumTakesOut<K, V>(m: map<K, V>, w: V -> nat, k: K)
    requires k in m
    ensures Sum(m, w) == w(m[k]) + Sum(m - {k}, w)
    decreases |m|
  {
    var c :| c in m && Sum(m, w) == w(m[c]) + Sum(m - {c}, w);
    if c != k {
      SumTakesOut(m - {c}, w, k);
      SumTakesOut(m - {k}, w, c);
      assert m - {c} - {k} == m - {k} - {c};
    }
  }

  /** Writing one key replaces exactly that key's weight. */
  lemma {:induction false} SumUpdate<K, V>(m: map<K, V>, w: V -> nat, k: K, v: V)
    ensures Sum(m[k := v], w) + (if k in m then w(m[k]) else 0) == Sum(m, w) + w(v)
  {
    var n := m[k := v];
    SumTakesOut(n, w, k);
    if k in m {
      SumTakesOut(m, w, k);
      assert n - {k} == m - {k};
    } else {
      assert n - {k} == m;
    }
  }

  /** No value outweighs the sum. */
  lemma SumBounds<K, V>(m: map<K, V>, w: V -> nat, k: K)
    requires k in m
    ensures w(m[k]) <= Sum(m, w)
  {
    SumTakesOut(m, w, k);
  }

  /** The total weight of the elements of `s`. */
  ghost function Total<V>(s: seq<V>, w: V -> nat): nat {
    if s == [] then 0 else Total(s[..|s| - 1], w) + w(s[|s| - 1])
  }

  lemma TotalAppend<V>(s: seq<V>, v: V, w: V -> nat)
    ensures Total(s + [v], w) == Total(s, w) + w(v)
  {
    assert (s + [v])[..|s|] == s;
  }

  /** Rewriting one element replaces exactly that element's weight. */
  lemma {:induction false} TotalUpdate<V>(s: seq<V>, i: nat, v: V, w: V -> nat)
    requires i < |s|
    ensures Total(s[i := v], w) + w(s[i]) == Total(s, w) + w(v)
    decreases |s|
  {
    var n := |s| - 1;
    if i == n {
      assert s[i := v][..n] == s[..n];
    } else {
      TotalUpdate(s[..n], i, v, w);
      assert s[i := v][..n] == s[..n][i := v];
    }
  }

  lemma {:induction false} TotalBounds<V>(s: seq<V>, i: nat, w: V -> nat)
    requires i < |s|
    ensures w(s[i]) <= Total(s, w)
    decreases |s|
  {
    if i < |s| - 1 {
      TotalBounds(s[..|s| - 1], i, w);
    }
  }
}
