/** Sums over rows, and the keys a GROUP BY makes of them. */
module Sums {
  import opened Relational
  import opened Wrappers

  function Sum<T>(rows: seq<T>, f: T -> int): int {
    if rows == [] then 0 else Sum(rows[..|rows| - 1], f) + f(rows[|rows| - 1])
  }

  /** The groups of GROUP BY key: every key that occurs, once. */
  function Keys<T, K(==)>(rows: seq<T>, key: T -> K): seq<K> {
    if rows == [] then []
    else
      var before := Keys(rows[..|rows| - 1], key);
      var k := key(rows[|rows| - 1]);
      if k in before then before else before + [k]
  }

  /** The rows of the group of `k`. */
  function Group<T, K(==)>(rows: seq<T>, key: T -> K, k: K): seq<T> {
    Where(rows, r => key(r) == k)
  }

  ghost predicate Distinct<K>(ks: seq<K>) {
    forall i, j :: 0 <= i < j < |ks| ==> ks[i] != ks[j]
  }

  lemma {:induction false} KeysMeaning<T, K>(rows: seq<T>, key: T -> K)
    ensures Distinct(Keys(rows, key))
    ensures forall k :: k in Keys(rows, key) <==> exists r :: r in rows && key(r) == k
  {
    if rows != [] {
      var n := |rows| - 1;
      KeysMeaning(rows[..n], key);
      assert rows == rows[..n] + [rows[n]];
      assert forall r :: r in rows <==> r in rows[..n] || r == rows[n];
      assert forall k :: k in Keys(rows, key) <==> k in Keys(rows[..n], key) || k == key(rows[n]);
    }
  }

  lemma {:induction false} SumOver<A, B>(rows: seq<A>, f: A -> B, g: B -> int, h: A -> int)
    requires forall a :: a in rows ==> g(f(a)) == h(a)
    ensures Sum(Select(rows, f), g) == Sum(rows, h)
  {
    if rows != [] {
      var n := |rows| - 1;
      assert Select(rows, f)[..n] == Select(rows[..n], f);
      SumOver(rows[..n], f, g, h);
    }
  }

  lemma {:induction false} SumAppend<T>(a: seq<T>, b: seq<T>, f: T -> int)
    ensures Sum(a + b, f) == Sum(a, f) + Sum(b, f)
  {
    if b == [] {
      assert a + b == a;
    } else {
      assert (a + b)[..|a + b| - 1] == a + b[..|b| - 1];
      SumAppend(a, b[..|b| - 1], f);
    }
  }

  lemma {:induction false} SumPlus<T>(rows: seq<T>, f: T -> int, g: T -> int, h: T -> int)
    requires forall x :: x in rows ==> h(x) == f(x) + g(x)
    ensures Sum(rows, h) == Sum(rows, f) + Sum(rows, g)
  {
    if rows != [] { SumPlus(rows[..|rows| - 1], f, g, h); }
  }

  lemma {:induction false} SumNonNegative<T>(rows: seq<T>, f: T -> int)
    requires forall x :: x in rows ==> f(x) >= 0
    ensures Sum(rows, f) >= 0
  {
    if rows != [] { SumNonNegative(rows[..|rows| - 1], f); }
  }

  lemma WhereGrows<T>(rows: seq<T>, p: T -> bool, f: T -> int)
    requires rows != []
    ensures var n := |rows| - 1;
      Sum(Where(rows, p), f) == Sum(Where(rows[..n], p), f) + if p(rows[n]) then f(rows[n]) else 0
  {
    var n := |rows| - 1;
    var before := Where(rows[..n], p);
    if p(rows[n]) {
      assert Where(rows, p) == before + [rows[n]];
      assert (before + [rows[n]])[..|before|] == before;
    } else {
      assert Where(rows, p) == before;
    }
  }

  lemma GroupGrows<T, K>(rows: seq<T>, key: T -> K, k: K, f: T -> int)
    requires rows != []
    ensures var n := |rows| - 1; var before := Group(rows[..n], key, k);
      && Group(rows, key, k) == (if key(rows[n]) == k then before + [rows[n]] else before)
      && Sum(Group(rows, key, k), f) == Sum(before, f) + if key(rows[n]) == k then f(rows[n]) else 0
  {
    WhereGrows(rows, r => key(r) == k, f);
  }

  lemma SumGroup<T, K>(rows: seq<T>, key: T -> K, k: K, f: T -> int, g: T -> int)
    requires forall x :: x in rows ==> g(x) == if key(x) == k then f(x) else 0
    ensures Sum(Group(rows, key, k), f) == Sum(rows, g)
  {
    SumWhere(rows, r => key(r) == k, f, g);
  }

  lemma GroupKeeps<T, K>(rows: seq<T>, key: T -> K, k: K)
    ensures forall r :: r in Group(rows, key, k) <==> r in rows && key(r) == k
  {
    WhereKeeps(rows, r => key(r) == k);
  }

  lemma GroupEmptyIff<T, K>(rows: seq<T>, key: T -> K, k: K)
    ensures Group(rows, key, k) == [] <==> k !in Keys(rows, key)
  {
    GroupKeeps(rows, key, k);
    KeysMeaning(rows, key);
    if Group(rows, key, k) != [] { assert Group(rows, key, k)[0] in Group(rows, key, k); }
  }

  lemma GroupAppend<T, K>(a: seq<T>, b: seq<T>, key: T -> K, k: K, f: T -> int)
    ensures Group(a + b, key, k) == Group(a, key, k) + Group(b, key, k)
    ensures Sum(Group(a + b, key, k), f) == Sum(Group(a, key, k), f) + Sum(Group(b, key, k), f)
  {
    WhereAppend(a, b, r => key(r) == k);
    SumAppend(Group(a, key, k), Group(b, key, k), f);
  }

  /** A filtered sum is the sum with the other rows counted as nothing. */
  lemma {:induction false} SumWhere<T>(rows: seq<T>, p: T -> bool, f: T -> int, g: T -> int)
    requires forall x :: x in rows ==> g(x) == if p(x) then f(x) else 0
    ensures Sum(Where(rows, p), f) == Sum(rows, g)
  {
    if rows != [] {
      var n := |rows| - 1;
      SumWhere(rows[..n], p, f, g);
      WhereGrows(rows, p, f);
    }
  }

  /** In a list without repetitions, what is counted for one key is counted once. */
  lemma {:induction false} SumAtKey<K>(ks: seq<K>, k: K, v: int, g: K -> int)
    requires Distinct(ks) && forall x :: x in ks ==> g(x) == if x == k then v else 0
    ensures Sum(ks, g) == if k in ks then v else 0
  {
    if ks != [] {
      var n := |ks| - 1;
      LastApart(ks);
      SumAtKey(ks[..n], k, v, g);
    }
  }

  lemma LastApart<K>(ks: seq<K>)
    requires Distinct(ks) && ks != []
    ensures var n := |ks| - 1;
      Distinct(ks[..n]) && ks[n] !in ks[..n] && forall x :: x in ks <==> x in ks[..n] || x == ks[n]
  {
    var n := |ks| - 1;
    assert ks == ks[..n] + [ks[n]];
    assert forall i :: 0 <= i < n ==> ks[..n][i] == ks[i];
  }

  /** Grouping conserves a total: the groups' sums add up to the sum of all rows. */
  lemma {:induction false} GroupsConserve<T, K>(rows: seq<T>, key: T -> K, f: T -> int, ks: seq<K>, g: K -> int)
    requires Distinct(ks) && forall r :: r in rows ==> key(r) in ks
    requires forall k :: k in ks ==> g(k) == Sum(Group(rows, key, k), f)
    ensures Sum(ks, g) == Sum(rows, f)
  {
    if rows == [] {
      if |ks| > 0 { SumAtKey(ks, ks[0], 0, g); }
    } else {
      var n := |rows| - 1;
      var last := rows[n];
      var before := (k: K) => Sum(Group(rows[..n], key, k), f);
      var added := (k: K) => if k == key(last) then f(last) else 0;
      assert forall r :: r in rows[..n] ==> r in rows;
      GroupsConserve(rows[..n], key, f, ks, before);
      SumAtKey(ks, key(last), f(last), added);
      assert last in rows;
      forall k | k in ks ensures g(k) == before(k) + added(k) {
        GroupGrows(rows, key, k, f);
      }
      SumPlus(ks, before, added, g);
    }
  }

  lemma TakeOut<T>(b: seq<T>, i: nat, f: T -> int)
    requires i < |b|
    ensures var rest := b[..i] + b[i + 1..];
      multiset(rest) == multiset(b) - multiset{b[i]} && Sum(b, f) == Sum(rest, f) + f(b[i])
  {
    assert b == (b[..i] + [b[i]]) + b[i + 1..];
    SumAppend(b[..i] + [b[i]], b[i + 1..], f);
    SumAppend(b[..i], [b[i]], f);
    SumAppend(b[..i], b[i + 1..], f);
  }

  /** Sums do not depend on the order of the rows. */
  lemma {:induction false} SumOfBag<T>(a: seq<T>, b: seq<T>, f: T -> int)
    requires multiset(a) == multiset(b)
    ensures Sum(a, f) == Sum(b, f) && |a| == |b|
  {
    if a == [] {
      assert |multiset(b)| == 0;
    } else {
      var n := |a| - 1;
      assert a == a[..n] + [a[n]];
      assert a[n] in multiset(b);
      var i :| 0 <= i < |b| && b[i] == a[n];
      TakeOut(b, i, f);
      SumOfBag(a[..n], b[..i] + b[i + 1..], f);
    }
  }

  lemma {:induction false} CountWhere<T>(rows: seq<T>, p: T -> bool, one: T -> int)
    requires forall x :: x in rows ==> one(x) == if p(x) then 1 else 0
    ensures |Where(rows, p)| == Sum(rows, one)
  {
    if rows != [] { CountWhere(rows[..|rows| - 1], p, one); }
  }

  // ---- ranks ---------------------------------------------------------------------------------------------------------

  ghost predicate Falling<T>(rows: seq<T>, key: T -> int) {
    forall i, j :: 0 <= i < j < |rows| ==> key(rows[i]) >= key(rows[j])
  }

  lemma {:induction false} AboveComeFirst<T>(sorted: seq<T>, key: T -> int, v: int, above: T -> bool)
    requires Falling(sorted, key) && forall x :: above(x) <==> key(x) > v
    ensures var n := |Where(sorted, above)|;
      n <= |sorted| && forall k :: 0 <= k < |sorted| ==> (k < n <==> key(sorted[k]) > v)
  {
    if sorted != [] {
      var n := |sorted| - 1;
      assert forall i :: 0 <= i < n ==> sorted[..n][i] == sorted[i];
      AboveComeFirst(sorted[..n], key, v, above);
    }
  }

  /** rank(): one more than the number of rows above is the place of the first row of that value, however ties fall. */
  lemma RankIsPlace<T>(rows: seq<T>, sorted: seq<T>, key: T -> int, t: T, above: T -> bool)
    requires multiset(sorted) == multiset(rows) && Falling(sorted, key) && t in rows
    requires forall x :: above(x) <==> key(x) > key(t)
    ensures var n := |Where(rows, above)|;
      n < |sorted| && key(sorted[n]) == key(t) && forall k :: 0 <= k < n ==> key(sorted[k]) > key(t)
  {
    WhereOfBag(rows, sorted, above, key);
    AboveComeFirst(sorted, key, key(t), above);
    assert t in multiset(sorted);
    var i :| 0 <= i < |sorted| && sorted[i] == t;
  }

  /** Rows of a filter, in any order: as many, and with the same sums. */
  lemma WhereOfBag<T>(a: seq<T>, b: seq<T>, p: T -> bool, f: T -> int)
    requires multiset(a) == multiset(b)
    ensures |Where(a, p)| == |Where(b, p)| && Sum(Where(a, p), f) == Sum(Where(b, p), f)
  {
    var one, g := (x: T) => if p(x) then 1 else 0, (x: T) => if p(x) then f(x) else 0;
    CountWhere(a, p, one);
    CountWhere(b, p, one);
    SumOfBag(a, b, one);
    SumWhere(a, p, f, g);
    SumWhere(b, p, f, g);
    SumOfBag(a, b, g);
  }

  lemma GroupOfBag<T, K>(a: seq<T>, b: seq<T>, key: T -> K, k: K, f: T -> int)
    requires multiset(a) == multiset(b)
    ensures |Group(a, key, k)| == |Group(b, key, k)| && Sum(Group(a, key, k), f) == Sum(Group(b, key, k), f)
  {
    WhereOfBag(a, b, r => key(r) == k, f);
  }
}
