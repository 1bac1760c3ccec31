/** Sequence operations that stand for the clauses of the SQL statements:
    WHERE (Filter), UPDATE ... WHERE (UpdateWhere), LIMIT (Take), COUNT and GROUP BY
    (GroupCount), plus the table invariant that a key column is unique. */
module Seqs {
  import opened Wrappers

  /** The elements of `s` that satisfy `p`, in their original order. */
  function Filter<T(!new)>(s: seq<T>, p: T -> bool): (r: seq<T>)
    ensures |r| <= |s|
    ensures forall x :: x in r <==> x in s && p(x)
    decreases |s|
  {
    if s == [] then []
    else (if p(s[0]) then [s[0]] else []) + Filter(s[1..], p)
  }

  /** The predicate "key(x) == k". */
  function Con<T(!new), K(==)>(key: T -> K, k: K): T -> bool {
    x => key(x) == k
  }

  /** The predicate "key(x) != k". */
  function Sin<T(!new), K(==)>(key: T -> K, k: K): T -> bool {
    Not(Con(key, k))
  }

  /** The predicate "not p(x)". */
  function Not<T(!new)>(p: T -> bool): T -> bool {
    x => !p(x)
  }

  /** The predicate "p(x) or q(x)". */
  function Or<T(!new)>(p: T -> bool, q: T -> bool): T -> bool {
    x => p(x) || q(x)
  }

  /** UPDATE ... SET ... WHERE p: every row satisfying `p` is replaced by `f` of it,
      every other row stays where it is and as it is. */
  function UpdateWhere<T(!new)>(s: seq<T>, p: T -> bool, f: T -> T): (r: seq<T>)
    ensures |r| == |s|
    ensures forall i :: 0 <= i < |s| && p(s[i]) ==> r[i] == f(s[i])
    ensures forall i :: 0 <= i < |s| && !p(s[i]) ==> r[i] == s[i]
    decreases |s|
  {
    if s == [] then []
    else [if p(s[0]) then f(s[0]) else s[0]] + UpdateWhere(s[1..], p, f)
  }

  /** LIMIT n: the first `n` elements, or all of them when there are fewer. */
  function Take<T(!new)>(s: seq<T>, n: nat): (r: seq<T>)
    ensures |r| <= n && |r| <= |s|
    ensures |s| <= n ==> r == s
    ensures r == s[..|r|]
  {
    if |s| <= n then s else s[..n]
  }

  /** Applies `f` to every element. */
  function MapSeq<A, B>(s: seq<A>, f: A -> B): (r: seq<B>)
    ensures |r| == |s|
    ensures forall i :: 0 <= i < |s| ==> r[i] == f(s[i])
  {
    seq(|s|, i requires 0 <= i < |s| => f(s[i]))
  }

  /** When `proj` recovers the row `f` was applied to, the mapped sequence holds exactly
      the images of the rows of `s`. */
  lemma MapSeqInverse<A, B>(s: seq<A>, f: A -> B, proj: B -> A)
    requires forall x :: proj(f(x)) == x
    ensures forall v :: v in MapSeq(s, f) ==> proj(v) in s && v == f(proj(v))
    ensures forall x :: x in s ==> f(x) in MapSeq(s, f)
  {
    var m := MapSeq(s, f);
    forall x | x in s ensures f(x) in m {
      var k :| 0 <= k < |s| && s[k] == x;
      assert m[k] == f(x);
    }
  }

  /** The mapped sequence holds the image of every row of `s`, and nothing else. */
  lemma MapSeqImages<A, B>(s: seq<A>, f: A -> B)
    ensures forall y :: y in MapSeq(s, f) ==> exists x :: x in s && y == f(x)
    ensures forall x :: x in s ==> f(x) in MapSeq(s, f)
  {
    var m := MapSeq(s, f);
    forall y | y in m ensures exists x :: x in s && y == f(x) {
      var k :| 0 <= k < |m| && m[k] == y;
      assert s[k] in s;
    }
    forall x | x in s ensures f(x) in m {
      var k :| 0 <= k < |s| && s[k] == x;
      assert m[k] == f(x);
    }
  }

  /** A key column with unique values, all below the table's next auto-increment value. */
  ghost predicate Keyed<T(!new)>(s: seq<T>, key: T -> int, next: int) {
    && (forall i :: 0 <= i < |s| ==> key(s[i]) < next)
    && (forall i, j :: 0 <= i < |s| && 0 <= j < |s| && i != j ==> key(s[i]) != key(s[j]))
  }

  /** A UNIQUE index over a nullable key: no two rows share a non-NULL key. */
  ghost predicate Unique<T(!new), K>(s: seq<T>, key: T -> Option<K>) {
    forall i, j :: 0 <= i < |s| && 0 <= j < |s| && i != j && key(s[i]).Some? ==> key(s[i]) != key(s[j])
  }

  lemma {:induction false} FilterAppend<T(!new)>(a: seq<T>, b: seq<T>, p: T -> bool)
    ensures Filter(a + b, p) == Filter(a, p) + Filter(b, p)
    decreases |a|
  {
    if a == [] {
      assert a + b == b;
    } else {
      assert (a + b)[0] == a[0];
      assert (a + b)[1..] == a[1..] + b;
      FilterAppend(a[1..], b, p);
    }
  }

  /** Appending one row with a fresh key keeps the key column unique. */
  lemma KeyedAppend<T(!new)>(s: seq<T>, key: T -> int, next: int, x: T)
    requires Keyed(s, key, next) && key(x) == next
    ensures Keyed(s + [x], key, next + 1)
  {
  }

  /** The tail of a keyed table is keyed, and its keys all differ from the head's. */
  lemma KeyedTail<T(!new)>(s: seq<T>, key: T -> int, next: int)
    requires s != [] && Keyed(s, key, next)
    ensures Keyed(s[1..], key, next)
    ensures forall y :: y in s[1..] ==> key(y) != key(s[0])
  {
    forall i, j | 0 <= i < |s[1..]| && 0 <= j < |s[1..]| && i != j
      ensures key(s[1..][i]) != key(s[1..][j])
    {
      assert s[1..][i] == s[i + 1] && s[1..][j] == s[j + 1];
    }
    forall y | y in s[1..] ensures key(y) != key(s[0]) {
      var j :| 0 <= j < |s[1..]| && s[1..][j] == y;
      assert s[j + 1] == y;
    }
  }

  /** A row whose key is below `next` and differs from every key of a keyed table
      can be put in front of it. */
  lemma KeyedCons<T(!new)>(x: T, t: seq<T>, key: T -> int, next: int)
    requires Keyed(t, key, next) && key(x) < next
    requires forall y :: y in t ==> key(y) != key(x)
    ensures Keyed([x] + t, key, next)
  {
    var r := [x] + t;
    forall i | 0 <= i < |r| ensures key(r[i]) < next {
      if i > 0 { assert r[i] == t[i - 1]; }
    }
    forall i, j | 0 <= i < |r| && 0 <= j < |r| && i != j ensures key(r[i]) != key(r[j]) {
      if i == 0 {
        assert r[j] == t[j - 1] && t[j - 1] in t;
      } else if j == 0 {
        assert r[i] == t[i - 1] && t[i - 1] in t;
      } else {
        assert r[i] == t[i - 1] && r[j] == t[j - 1];
      }
    }
  }

  /** Deleting rows keeps the key column unique. */
  lemma {:induction false} KeyedFilter<T(!new)>(s: seq<T>, key: T -> int, next: int, p: T -> bool)
    requires Keyed(s, key, next)
    ensures Keyed(Filter(s, p), key, next)
    decreases |s|
  {
    if s != [] {
      KeyedTail(s, key, next);
      KeyedFilter(s[1..], key, next, p);
      if p(s[0]) {
        KeyedCons(s[0], Filter(s[1..], p), key, next);
      }
    }
  }

  /** The tail of a uniquely indexed table is uniquely indexed, and no key in it equals
      the head's non-NULL key. */
  lemma UniqueTail<T(!new), K>(s: seq<T>, key: T -> Option<K>)
    requires s != [] && Unique(s, key)
    ensures Unique(s[1..], key)
    ensures key(s[0]).Some? ==> forall y :: y in s[1..] ==> key(y) != key(s[0])
  {
    forall i, j | 0 <= i < |s[1..]| && 0 <= j < |s[1..]| && i != j && key(s[1..][i]).Some?
      ensures key(s[1..][i]) != key(s[1..][j])
    {
      assert s[1..][i] == s[i + 1] && s[1..][j] == s[j + 1];
    }
    if key(s[0]).Some? {
      forall y | y in s[1..] ensures key(y) != key(s[0]) {
        var j :| 0 <= j < |s[1..]| && s[1..][j] == y;
        assert s[j + 1] == y;
      }
    }
  }

  lemma UniqueCons<T(!new), K>(x: T, t: seq<T>, key: T -> Option<K>)
    requires Unique(t, key)
    requires key(x).Some? ==> forall y :: y in t ==> key(y) != key(x)
    ensures Unique([x] + t, key)
  {
    var r := [x] + t;
    forall i, j | 0 <= i < |r| && 0 <= j < |r| && i != j && key(r[i]).Some?
      ensures key(r[i]) != key(r[j])
    {
      if i == 0 {
        assert r[j] == t[j - 1] && t[j - 1] in t;
      } else if j == 0 {
        assert r[i] == t[i - 1] && t[i - 1] in t;
      } else {
        assert r[i] == t[i - 1] && r[j] == t[j - 1];
      }
    }
  }

  /** Deleting rows keeps a UNIQUE index satisfied. */
  lemma {:induction false} UniqueFilter<T(!new), K>(s: seq<T>, key: T -> Option<K>, p: T -> bool)
    requires Unique(s, key)
    ensures Unique(Filter(s, p), key)
    decreases |s|
  {
    if s != [] {
      UniqueTail(s, key);
      UniqueFilter(s[1..], key, p);
      if p(s[0]) {
        UniqueCons(s[0], Filter(s[1..], p), key);
      }
    }
  }

  /** Rewriting rows without touching their key keeps the key column unique. */
  lemma KeyedUpdate<T(!new)>(s: seq<T>, key: T -> int, next: int, p: T -> bool, f: T -> T)
    requires Keyed(s, key, next)
    requires forall x :: key(f(x)) == key(x)
    ensures Keyed(UpdateWhere(s, p, f), key, next)
  {
    var r := UpdateWhere(s, p, f);
    assert forall i :: 0 <= i < |s| ==> key(r[i]) == key(s[i]);
  }

  /** Appending a row whose key is NULL or not yet present keeps a UNIQUE index valid. */
  lemma UniqueAppend<T(!new), K>(s: seq<T>, key: T -> Option<K>, x: T)
    requires Unique(s, key)
    requires key(x).Some? ==> forall y :: y in s ==> key(y) != key(x)
    ensures Unique(s + [x], key)
  {
    var r := s + [x];
    forall i, j | 0 <= i < |r| && 0 <= j < |r| && i != j && key(r[i]).Some?
      ensures key(r[i]) != key(r[j])
    {
      if i == |s| {
        assert r[j] in s;
      } else if j == |s| {
        assert r[i] in s;
      }
    }
  }

  /** Rewriting rows without touching their unique key keeps the index valid. */
  lemma UniqueUpdateSameKey<T(!new), K>(s: seq<T>, key: T -> Option<K>, p: T -> bool, f: T -> T)
    requires Unique(s, key)
    requires forall x :: key(f(x)) == key(x)
    ensures Unique(UpdateWhere(s, p, f), key)
  {
    var r := UpdateWhere(s, p, f);
    assert forall i :: 0 <= i < |s| ==> key(r[i]) == key(s[i]);
  }

  /** Rewriting the one row whose id is `id` keeps a UNIQUE index valid when the new key
      is NULL or held by no other row. */
  lemma UniqueUpdateOne<T(!new), K>(s: seq<T>, key: T -> Option<K>, id: T -> int, next: int,
                                     p: T -> bool, f: T -> T, k: int)
    requires Unique(s, key) && Keyed(s, id, next)
    requires forall x :: p(x) ==> id(x) == k
    requires forall x, y :: x in s && y in s && p(x) && id(y) != k && key(f(x)).Some? ==> key(f(x)) != key(y)
    ensures Unique(UpdateWhere(s, p, f), key)
  {
    var r := UpdateWhere(s, p, f);
    forall i, j | 0 <= i < |r| && 0 <= j < |r| && i != j && key(r[i]).Some?
      ensures key(r[i]) != key(r[j])
    {
      assert s[i] in s && s[j] in s;
      assert id(s[i]) != id(s[j]);
      if p(s[i]) {
        assert !p(s[j]);
      } else if p(s[j]) {
        assert r[i] == s[i];
      }
    }
  }

  /** In a table whose key column is unique, a condition that pins the key matches
      at most one row: the affected count of such a statement is 0 or 1. */
  lemma {:induction false} AtMostOne<T(!new)>(s: seq<T>, key: T -> int, next: int, p: T -> bool, k: int)
    requires Keyed(s, key, next)
    requires forall x :: p(x) ==> key(x) == k
    ensures |Filter(s, p)| <= 1
    decreases |s|
  {
    if s != [] {
      KeyedTail(s, key, next);
      AtMostOne(s[1..], key, next, p, k);
      if p(s[0]) {
        FilterNone(s[1..], p);
      }
    }
  }

  /** A row appended with the next key value is the only row a condition on that key
      selects. */
  lemma FilterFresh<T(!new)>(s: seq<T>, key: T -> int, next: int, p: T -> bool, x: T)
    requires Keyed(s, key, next)
    requires forall y :: p(y) ==> key(y) == next
    requires p(x)
    ensures Filter(s + [x], p) == [x]
  {
    forall y | y in s ensures !p(y) {
      var k :| 0 <= k < |s| && s[k] == y;
    }
    FilterNone(s, p);
    FilterAppend(s, [x], p);
    assert Filter([x], p) == [x];
  }

  /** Two UPDATEs with the same condition, where the first keeps the condition true,
      act as one UPDATE applying both rewrites. */
  lemma UpdateWhereTwice<T(!new)>(s: seq<T>, p: T -> bool, f: T -> T, g: T -> T, h: T -> T)
    requires forall x :: p(x) ==> p(f(x)) && g(f(x)) == h(x)
    ensures UpdateWhere(UpdateWhere(s, p, f), p, g) == UpdateWhere(s, p, h)
  {
    var a := UpdateWhere(UpdateWhere(s, p, f), p, g);
    var b := UpdateWhere(s, p, h);
    forall i | 0 <= i < |s| ensures a[i] == b[i] {
      if p(s[i]) {
        assert UpdateWhere(s, p, f)[i] == f(s[i]);
      }
    }
  }

  lemma {:induction false} UpdateWhereAppend<T(!new)>(a: seq<T>, b: seq<T>, p: T -> bool, f: T -> T)
    ensures UpdateWhere(a + b, p, f) == UpdateWhere(a, p, f) + UpdateWhere(b, p, f)
    decreases |a|
  {
    if a == [] {
      assert a + b == b;
    } else {
      assert (a + b)[1..] == a[1..] + b;
      UpdateWhereAppend(a[1..], b, p, f);
    }
  }

  /** An UPDATE whose condition matches no row leaves the table as it was. */
  lemma UpdateWhereNone<T(!new)>(s: seq<T>, p: T -> bool, f: T -> T)
    requires forall x :: x in s ==> !p(x)
    ensures UpdateWhere(s, p, f) == s
  {
    var r := UpdateWhere(s, p, f);
    assert forall i :: 0 <= i < |s| ==> r[i] == s[i];
  }

  /** A row that does not satisfy `p` at the head is dropped, so the filter is shorter. */
  lemma FilterDropsHead<T(!new)>(s: seq<T>, p: T -> bool)
    requires s != [] && !p(s[0])
    ensures |Filter(s, p)| < |s|
  {
    assert Filter(s, p) == Filter(s[1..], p);
  }

  /** Every element satisfies p (resp. none does): the filter keeps all (resp. nothing). */
  lemma {:induction false} FilterAll<T(!new)>(s: seq<T>, p: T -> bool)
    requires forall x :: x in s ==> p(x)
    ensures Filter(s, p) == s
    decreases |s|
  {
    if s != [] {
      assert forall x :: x in s[1..] ==> x in s;
      FilterAll(s[1..], p);
      assert s == [s[0]] + s[1..];
    }
  }

  lemma FilterNone<T(!new)>(s: seq<T>, p: T -> bool)
    requires forall x :: x in s ==> !p(x)
    ensures Filter(s, p) == []
  {
  }

  /** The rows satisfying p and the rows not satisfying p together are all the rows. */
  lemma {:induction false} FilterComplement<T(!new)>(s: seq<T>, p: T -> bool)
    ensures |Filter(s, p)| + |Filter(s, Not(p))| == |s|
    decreases |s|
  {
    if s != [] {
      FilterComplement(s[1..], p);
    }
  }

  /** Two conditions that never hold together count no more rows than their disjunction. */
  lemma {:induction false} FilterDisjoint<T(!new)>(s: seq<T>, p: T -> bool, q: T -> bool)
    requires forall x :: !(p(x) && q(x))
    ensures |Filter(s, p)| + |Filter(s, q)| == |Filter(s, Or(p, q))|
    decreases |s|
  {
    if s != [] {
      FilterDisjoint(s[1..], p, q);
    }
  }

  /** A weaker condition selects at least as many rows. */
  lemma {:induction false} FilterWeaker<T(!new)>(s: seq<T>, p: T -> bool, q: T -> bool)
    requires forall x :: p(x) ==> q(x)
    ensures |Filter(s, p)| <= |Filter(s, q)|
    decreases |s|
  {
    if s != [] {
      FilterWeaker(s[1..], p, q);
    }
  }

  /** Filtering first by a condition that p implies does not change what p selects. */
  lemma {:induction false} FilterTwice<T(!new)>(s: seq<T>, q: T -> bool, p: T -> bool)
    requires forall x :: p(x) ==> q(x)
    ensures Filter(Filter(s, q), p) == Filter(s, p)
    decreases |s|
  {
    if s != [] {
      FilterTwice(s[1..], q, p);
      var inner := Filter(s[1..], q);
      if q(s[0]) {
        var f := [s[0]] + inner;
        assert Filter(s, q) == f;
        assert f[0] == s[0] && f[1..] == inner;
        assert Filter(f, p) == (if p(s[0]) then [s[0]] else []) + Filter(inner, p);
      } else {
        assert Filter(s, q) == inner;
      }
    }
  }

  /** Two conditions that agree on every row of `s` select the same rows of it. */
  lemma {:induction false} FilterSame<T(!new)>(s: seq<T>, p: T -> bool, q: T -> bool)
    requires forall x :: x in s ==> p(x) == q(x)
    ensures Filter(s, p) == Filter(s, q)
    decreases |s|
  {
    if s != [] {
      FilterSame(s[1..], p, q);
    }
  }

  /** Cutting a list sorted by descending `key` keeps a sorted sublist whose elements
      have keys at least those of every element it drops. */
  lemma TakeKeepsLargest<T(!new)>(s: seq<T>, key: T -> int, n: nat)
    requires forall i, j :: 0 <= i < j < |s| ==> key(s[i]) >= key(s[j])
    ensures forall x :: x in Take(s, n) ==> x in s
    ensures var r := Take(s, n); forall i, j :: 0 <= i < j < |r| ==> key(r[i]) >= key(r[j])
    ensures forall a, b :: a in s && a !in Take(s, n) && b in Take(s, n) ==> key(b) >= key(a)
  {
    var r := Take(s, n);
    forall x | x in r ensures x in s {
      var j :| 0 <= j < |r| && r[j] == x;
      assert r[j] == s[j];
    }
    forall a, b | a in s && a !in r && b in r
      ensures key(b) >= key(a)
    {
      var k :| 0 <= k < |s| && s[k] == a;
      var j :| 0 <= j < |r| && r[j] == b;
      assert r[j] == s[j];
    }
  }
}
