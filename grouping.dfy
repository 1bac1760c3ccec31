/** GROUP BY with COUNT(*): one row per distinct key with the number of rows holding it. */
module Grouping {
  import opened Seqs

  /** The sum of the counts of a grouped result. */
  function Total<K>(g: seq<(K, nat)>): nat
    decreases |g|
  {
    if g == [] then 0 else g[0].1 + Total(g[1..])
  }

  /** No key occurs in two rows. */
  ghost predicate DistinctKeys<K>(g: seq<(K, nat)>) {
    forall i, j :: 0 <= i < |g| && 0 <= j < |g| && i != j ==> g[i].0 != g[j].0
  }

  /** GROUP BY key: the groups in order of first occurrence. */
  function GroupCount<T(!new), K(==)>(s: seq<T>, key: T -> K): (g: seq<(K, nat)>)
    decreases |s|
  {
    if s == [] then []
    else
      var k := key(s[0]);
      FilterDropsHead(s, Sin(key, k));
      [(k, |Filter(s, Con(key, k))|)] + GroupCount(Filter(s, Sin(key, k)), key)
  }

  /** Every group's count is the number of rows with its key, so no group is empty. */
  lemma {:induction false} GroupCountCounts<T(!new), K>(s: seq<T>, key: T -> K)
    ensures forall i :: 0 <= i < |GroupCount(s, key)| ==>
      GroupCount(s, key)[i].1 == |Filter(s, Con(key, GroupCount(s, key)[i].0))| >= 1
    decreases |s|
  {
    if s != [] {
      var k := key(s[0]);
      var rest := Filter(s, Sin(key, k));
      FilterDropsHead(s, Sin(key, k));
      GroupCountCounts(rest, key);
      var g := GroupCount(s, key);
      var gr := GroupCount(rest, key);
      assert g == [(k, |Filter(s, Con(key, k))|)] + gr;
      assert s[0] in Filter(s, Con(key, k));
      forall i | 0 <= i < |g| ensures g[i].1 == |Filter(s, Con(key, g[i].0))| >= 1 {
        if i > 0 {
          assert g[i] == gr[i - 1];
          var k' := gr[i - 1].0;
          var f := Filter(rest, Con(key, k'));
          assert f[0] in f;
          assert k' != k;
          FilterTwice(s, Sin(key, k), Con(key, k'));
        }
      }
    }
  }

  /** No key is grouped twice. */
  lemma {:induction false} GroupCountDistinct<T(!new), K>(s: seq<T>, key: T -> K)
    ensures DistinctKeys(GroupCount(s, key))
    decreases |s|
  {
    if s != [] {
      var k := key(s[0]);
      var rest := Filter(s, Sin(key, k));
      FilterDropsHead(s, Sin(key, k));
      GroupCountDistinct(rest, key);
      GroupCountCounts(rest, key);
      var g := GroupCount(s, key);
      var gr := GroupCount(rest, key);
      assert g == [(k, |Filter(s, Con(key, k))|)] + gr;
      forall j | 0 <= j < |gr| ensures gr[j].0 != k {
        var f := Filter(rest, Con(key, gr[j].0));
        assert f[0] in f;
      }
      forall i, j | 0 <= i < |g| && 0 <= j < |g| && i != j ensures g[i].0 != g[j].0 {
        if i > 0 && j > 0 {
          assert g[i] == gr[i - 1] && g[j] == gr[j - 1];
        } else if i == 0 {
          assert g[j] == gr[j - 1];
        } else {
          assert g[i] == gr[i - 1];
        }
      }
    }
  }

  /** Every key present in the rows has a group. */
  lemma {:induction false} GroupCountCovers<T(!new), K>(s: seq<T>, key: T -> K, x: T)
    requires x in s
    ensures exists i :: 0 <= i < |GroupCount(s, key)| && GroupCount(s, key)[i].0 == key(x)
    decreases |s|
  {
    var k := key(s[0]);
    var g := GroupCount(s, key);
    if key(x) == k {
      assert g[0].0 == key(x);
    } else {
      var rest := Filter(s, Sin(key, k));
      FilterDropsHead(s, Sin(key, k));
      assert x in rest;
      GroupCountCovers(rest, key, x);
      var gr := GroupCount(rest, key);
      assert g == [(k, |Filter(s, Con(key, k))|)] + gr;
      var i :| 0 <= i < |gr| && gr[i].0 == key(x);
      assert g[i + 1] == gr[i];
    }
  }

  /** The counts add up to the number of rows grouped. */
  lemma {:induction false} GroupCountTotal<T(!new), K>(s: seq<T>, key: T -> K)
    ensures Total(GroupCount(s, key)) == |s|
    decreases |s|
  {
    if s != [] {
      var k := key(s[0]);
      var rest := Filter(s, Sin(key, k));
      FilterDropsHead(s, Sin(key, k));
      GroupCountTotal(rest, key);
      FilterComplement(s, Con(key, k));
      var g := GroupCount(s, key);
      assert g[1..] == GroupCount(rest, key);
    }
  }

  lemma {:induction false} TotalAppend<K>(a: seq<(K, nat)>, b: seq<(K, nat)>)
    ensures Total(a + b) == Total(a) + Total(b)
    decreases |a|
  {
    if a == [] {
      assert a + b == b;
    } else {
      assert (a + b)[1..] == a[1..] + b;
      TotalAppend(a[1..], b);
    }
  }

  /** Taking one row out of a grouped result takes its count out of the sum. */
  lemma TotalRemove<K>(b: seq<(K, nat)>, k: nat)
    requires k < |b|
    ensures Total(b) == b[k].1 + Total(b[..k] + b[k + 1..])
  {
    assert b == b[..k] + ([b[k]] + b[k + 1..]);
    TotalAppend(b[..k], [b[k]] + b[k + 1..]);
    TotalAppend([b[k]], b[k + 1..]);
    var one := [b[k]];
    assert Total(one) == b[k].1 by { assert one[1..] == []; }
    TotalAppend(b[..k], b[k + 1..]);
  }

  lemma MultisetRemove<X>(b: seq<X>, k: nat)
    requires k < |b|
    ensures multiset(b[..k] + b[k + 1..]) == multiset(b) - multiset{b[k]}
  {
    assert b == b[..k] + [b[k]] + b[k + 1..];
    calc {
      multiset(b);
      multiset(b[..k]) + multiset([b[k]]) + multiset(b[k + 1..]);
      multiset(b[..k] + b[k + 1..]) + multiset{b[k]};
    }
  }

  /** Reordering the groups (ORDER BY) does not change the sum of the counts. */
  lemma {:induction false} TotalPermutation<K>(a: seq<(K, nat)>, b: seq<(K, nat)>)
    requires multiset(a) == multiset(b)
    ensures Total(a) == Total(b)
    decreases |a|
  {
    if a == [] {
      assert |multiset(b)| == 0;
    } else {
      assert a[0] in multiset(b);
      var k :| 0 <= k < |b| && b[k] == a[0];
      var rest := b[..k] + b[k + 1..];
      MultisetRemove(b, k);
      assert multiset(a[1..]) == multiset(a) - multiset{a[0]} by {
        assert a == [a[0]] + a[1..];
      }
      TotalPermutation(a[1..], rest);
      TotalRemove(b, k);
    }
  }

  /** In a sequence with distinct keys every element occurs once. */
  lemma {:induction false} DistinctOnce<K>(g: seq<(K, nat)>, x: (K, nat))
    requires DistinctKeys(g)
    ensures multiset(g)[x] <= 1
    decreases |g|
  {
    if g != [] {
      assert g == [g[0]] + g[1..];
      assert DistinctKeys(g[1..]) by {
        forall i, j | 0 <= i < |g[1..]| && 0 <= j < |g[1..]| && i != j ensures g[1..][i].0 != g[1..][j].0 {
          assert g[1..][i] == g[i + 1] && g[1..][j] == g[j + 1];
        }
      }
      DistinctOnce(g[1..], x);
    }
  }

  /** Reordering the groups (ORDER BY) keeps the keys distinct. */
  lemma PermutationDistinct<K>(g: seq<(K, nat)>, r: seq<(K, nat)>)
    requires DistinctKeys(g) && multiset(r) == multiset(g)
    ensures DistinctKeys(r)
  {
    forall i, j | 0 <= i < |r| && 0 <= j < |r| && i != j ensures r[i].0 != r[j].0 {
      if r[i].0 == r[j].0 {
        var lo, hi := if i < j then i else j, if i < j then j else i;
        assert r[lo] in multiset(g) && r[hi] in multiset(g);
        if r[lo] == r[hi] {
          assert r == r[..hi] + [r[hi]] + r[hi + 1..];
          assert r[lo] in r[..hi];
          assert multiset(r)[r[hi]] >= 2;
          DistinctOnce(g, r[hi]);
        }
      }
    }
  }

  /** The predicate "p(x) and key(x) == k": the rows of one group of `WHERE p GROUP BY key`. */
  function Donde<T(!new), K(==)>(p: T -> bool, key: T -> K, k: K): T -> bool {
    x => p(x) && key(x) == k
  }

  /** `SELECT key, COUNT(*) WHERE p GROUP BY key`: the keys are distinct, each group counts
      the rows of the table that satisfy `p` and carry its key (so none is empty), every
      such row has its group, and the counts add up to the rows selected. */
  lemma GroupWhere<T(!new), K>(s: seq<T>, p: T -> bool, key: T -> K)
    ensures var g := GroupCount(Filter(s, p), key);
      && DistinctKeys(g)
      && (forall x :: x in g ==> x.1 == |Filter(s, Donde(p, key, x.0))| >= 1)
      && (forall x :: x in g ==> exists y :: y in s && p(y) && key(y) == x.0)
      && (forall y :: y in s && p(y) ==> exists x :: x in g && x.0 == key(y))
      && Total(g) == |Filter(s, p)|
  {
    var f := Filter(s, p);
    var g := GroupCount(f, key);
    GroupCountDistinct(f, key);
    GroupCountCounts(f, key);
    GroupCountTotal(f, key);
    forall x | x in g ensures x.1 == |Filter(s, Donde(p, key, x.0))| >= 1 {
      var i :| 0 <= i < |g| && g[i] == x;
      FilterTwice(s, p, Donde(p, key, x.0));
      FilterSame(f, Con(key, x.0), Donde(p, key, x.0));
    }
    forall x | x in g ensures exists y :: y in s && p(y) && key(y) == x.0 {
      var i :| 0 <= i < |g| && g[i] == x;
      var rows := Filter(f, Con(key, x.0));
      assert rows[0] in rows;
    }
    forall y | y in s && p(y) ensures exists x :: x in g && x.0 == key(y) {
      GroupCountCovers(f, key, y);
      var i :| 0 <= i < |g| && g[i].0 == key(y);
      assert g[i] in g;
    }
  }
}
