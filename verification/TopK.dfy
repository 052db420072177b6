/** ORDER BY key DESC LIMIT k, which leaves the choice among equal keys to the database. */
module TopK {
  function Min(a: nat, b: nat): nat { if a < b then a else b }

  ghost predicate Descending<T>(key: T -> int, out: seq<T>) {
    forall i, j :: 0 <= i < j < |out| ==> key(out[i]) >= key(out[j])
  }

  /** What is left out is nowhere above what is returned. */
  ghost predicate Dominates<T(!new)>(key: T -> int, input: multiset<T>, chosen: multiset<T>) {
    forall x, y :: input[x] > chosen[x] && y in chosen ==> key(x) <= key(y)
  }

  /** `out` is a possible answer. */
  ghost predicate IsTopK<T(!new)>(key: T -> int, k: nat, input: multiset<T>, out: seq<T>) {
    && multiset(out) <= input
    && |out| == Min(k, |input|)
    && Descending(key, out)
    && Dominates(key, input, multiset(out))
  }

  lemma SubsetOfSameSize<T>(a: multiset<T>, b: multiset<T>)
    requires a <= b && |a| >= |b|
    ensures a == b
  {
    assert b == a + (b - a);
    assert |b - a| == 0;
  }

  /** The element of a full top-k that the outer answer passed over. */
  lemma PassedOver<T(!new)>(key: T -> int, k: nat, a: multiset<T>, r: multiset<T>, y: T) returns (z: T)
    requires |a| == k && |r| <= k && y in r && a[y] == 0
    ensures a[z] > r[z]
  {
    if forall z :: a[z] <= r[z] {
      SubsetOfSameSize(a, r);
    }
    z :| a[z] > r[z];
  }

  lemma FullWhenSomethingLeft<T(!new)>(key: T -> int, k: nat, input: multiset<T>, out: seq<T>, x: T)
    requires IsTopK(key, k, input, out) && input[x] > multiset(out)[x]
    ensures |out| == k
  {
    if |out| == |input| { SubsetOfSameSize(multiset(out), input); }
  }

  /** Something a branch left out is below everything the outer answer took. */
  lemma BranchLeftover<T(!new)>(key: T -> int, k: nat, A: multiset<T>, a: seq<T>, b: multiset<T>, r: seq<T>, x: T, y: T)
    requires IsTopK(key, k, A, a) && A[x] > multiset(a)[x]
    requires Dominates(key, multiset(a) + b, multiset(r)) && |r| <= k && y in multiset(r)
    ensures key(x) <= key(y)
  {
    FullWhenSomethingLeft(key, k, A, a, x);
    if multiset(a)[y] == 0 {
      var z := PassedOver(key, k, multiset(a), multiset(r), y);
      assert (multiset(a) + b)[z] > multiset(r)[z];
      assert z in multiset(a);
    }
  }

  /** Taking the limit in both branches and again outside loses nothing. */
  lemma PushdownSound<T(!new)>(key: T -> int, k: nat, A: multiset<T>, B: multiset<T>, a: seq<T>, b: seq<T>, r: seq<T>)
    requires IsTopK(key, k, A, a) && IsTopK(key, k, B, b) && IsTopK(key, k, multiset(a) + multiset(b), r)
    ensures IsTopK(key, k, A + B, r)
  {
    forall x, y | (A + B)[x] > multiset(r)[x] && y in multiset(r) ensures key(x) <= key(y) {
      if A[x] > multiset(a)[x] {
        BranchLeftover(key, k, A, a, multiset(b), r, x, y);
      } else if B[x] > multiset(b)[x] {
        assert multiset(a) + multiset(b) == multiset(b) + multiset(a);
        BranchLeftover(key, k, B, b, multiset(a), r, x, y);
      }
    }
  }

  // ---- answers exist ------------------------------------------------------------------------------------

  lemma {:induction false} Newest<T(!new)>(key: T -> int, input: multiset<T>) returns (m: T)
    requires |input| > 0
    ensures m in input && forall x :: x in input ==> key(x) <= key(m)
    decreases |input|
  {
    var x :| x in input;
    var rest := input - multiset{x};
    if |rest| == 0 {
      assert input == rest + multiset{x};
      m := x;
    } else {
      var n := Newest(key, rest);
      m := if key(n) < key(x) then x else n;
      assert input == rest + multiset{x};
    }
  }

  lemma DominatesBoth<T(!new)>(key: T -> int, input: multiset<T>, a: multiset<T>, b: multiset<T>)
    requires Dominates(key, input, a) && Dominates(key, input - a, b)
    ensures Dominates(key, input, a + b)
  {
    forall x, y | input[x] > (a + b)[x] && y in a + b ensures key(x) <= key(y) {
      if y in b { assert (input - a)[x] > b[x]; }
    }
  }

  lemma DescendingAppend<T(!new)>(key: T -> int, a: seq<T>, b: seq<T>)
    requires Descending(key, a) && Descending(key, b)
    requires forall x, y :: x in multiset(a) && y in multiset(b) ==> key(y) <= key(x)
    ensures Descending(key, a + b) && multiset(a + b) == multiset(a) + multiset(b)
  {
    forall i, j | 0 <= i < |a| && 0 <= j < |b| ensures key(a[i]) >= key(b[j]) {
      assert a[i] in multiset(a) && b[j] in multiset(b);
    }
  }

  lemma RestBelow<T(!new)>(key: T -> int, input: multiset<T>, part: multiset<T>, rest: multiset<T>)
    requires Dominates(key, input, part) && rest <= input - part
    ensures forall x, y :: x in part && y in rest ==> key(y) <= key(x)
  {
    forall x, y | x in part && y in rest ensures key(y) <= key(x) { assert input[y] > part[y]; }
  }

  lemma PartAndRest<T>(input: multiset<T>, part: multiset<T>, rest: multiset<T>)
    requires part <= input && rest <= input - part
    ensures part + rest <= input && |input - part| == |input| - |part|
  {
    assert input == part + (input - part);
  }

  /** Chosen first, a part that dominates its input leaves the rest of the limit to the rest of the input. */
  lemma Concatenate<T(!new)>(key: T -> int, k: nat, input: multiset<T>, first: seq<T>, rest: seq<T>)
    requires multiset(first) <= input && |first| <= k && Dominates(key, input, multiset(first)) && Descending(key, first)
    requires IsTopK(key, k - |first|, input - multiset(first), rest)
    ensures IsTopK(key, k, input, first + rest) && multiset(first + rest) == multiset(first) + multiset(rest)
  {
    var part := multiset(first);
    RestBelow(key, input, part, multiset(rest));
    DescendingAppend(key, first, rest);
    DominatesBoth(key, input, part, multiset(rest));
    PartAndRest(input, part, multiset(rest));
  }

  /** Copies of `s` come before anything not above it. */
  ghost predicate Favours<T(!new)>(key: T -> int, input: multiset<T>, r: multiset<T>, s: T) {
    r[s] == input[s] || forall x :: x in r ==> key(x) >= key(s) && (key(x) == key(s) ==> x == s)
  }

  /** Putting a newest element before the answer over the rest keeps it that way. */
  lemma FavoursMore<T(!new)>(key: T -> int, input: multiset<T>, m: T, rest: multiset<T>, s: T)
    requires m in input && rest <= input - multiset{m} && Favours(key, input - multiset{m}, rest, s)
    requires (forall x :: x in input ==> key(x) <= key(m)) && (s in input && key(s) == key(m) ==> m == s)
    ensures Favours(key, input, multiset{m} + rest, s)
  {
    if s in input && m != s && rest[s] != input[s] {
      assert forall x :: x in multiset{m} + rest ==> x == m || x in rest;
    }
  }

  /** An answer that takes copies of `s` before its equals. */
  lemma {:induction false} Choose<T(!new)>(key: T -> int, k: nat, input: multiset<T>, s: T) returns (r: seq<T>)
    ensures IsTopK(key, k, input, r) && Favours(key, input, multiset(r), s)
    decreases k
  {
    if k == 0 || |input| == 0 {
      r := [];
    } else {
      var m := Newest(key, input);
      if s in input && key(s) == key(m) { m := s; }
      var rest := Choose(key, k - 1, input - multiset{m}, s);
      assert multiset([m]) == multiset{m};
      Concatenate(key, k, input, [m], rest);
      FavoursMore(key, input, m, multiset(rest), s);
      r := [m] + rest;
    }
  }

  /** A part that dominates the rest of its input extends to an answer. */
  lemma ExtendToTopK<T(!new)>(key: T -> int, k: nat, input: multiset<T>, part: multiset<T>) returns (r: seq<T>)
    requires part <= input && |part| <= k && Dominates(key, input, part)
    ensures IsTopK(key, k, input, r) && part <= multiset(r)
  {
    var first := SortAll(key, part);
    var rest := SomeTopK(key, k - |part|, input - part);
    r := first + rest;
    assert |first| == |multiset(first)|;
    Concatenate(key, k, input, first, rest);
  }

  lemma SomeTopK<T(!new)>(key: T -> int, k: nat, input: multiset<T>) returns (r: seq<T>)
    ensures IsTopK(key, k, input, r)
  {
    if k == 0 || |input| == 0 {
      r := [];
    } else {
      var m := Newest(key, input);
      r := Choose(key, k, input, m);
    }
  }

  lemma SortAll<T(!new)>(key: T -> int, input: multiset<T>) returns (r: seq<T>)
    ensures multiset(r) == input && Descending(key, r)
  {
    r := SomeTopK(key, |input|, input);
    SubsetOfSameSize(multiset(r), input);
  }

  // ---- every answer is still possible --------------------------------------------------------------------

  lemma SplitDominates<T(!new)>(key: T -> int, A: multiset<T>, B: multiset<T>, r: multiset<T>)
    requires Dominates(key, A + B, r)
    ensures Dominates(key, A, r * A) && Dominates(key, B, r - r * A)
  {
    forall x, y | A[x] > (r * A)[x] && y in r * A ensures key(x) <= key(y) {
      assert (A + B)[x] > r[x] && y in r;
    }
    forall x, y | B[x] > (r - r * A)[x] && y in r - r * A ensures key(x) <= key(y) {
      assert (A + B)[x] > r[x] && y in r;
    }
  }

  lemma NarrowerTopK<T(!new)>(key: T -> int, k: nat, wide: multiset<T>, narrow: multiset<T>, r: seq<T>)
    requires IsTopK(key, k, wide, r) && multiset(r) <= narrow <= wide && |r| == Min(k, |narrow|)
    ensures IsTopK(key, k, narrow, r)
  {
    forall x, y | narrow[x] > multiset(r)[x] && y in multiset(r) ensures key(x) <= key(y) {
      assert wide[x] > multiset(r)[x];
    }
  }

  /** Branches that hold all of an answer produce it. */
  lemma BranchesProduce<T(!new)>(key: T -> int, k: nat, A: multiset<T>, B: multiset<T>, a: seq<T>, b: seq<T>, r: seq<T>)
    requires IsTopK(key, k, A, a) && IsTopK(key, k, B, b) && IsTopK(key, k, A + B, r)
    requires multiset(r) <= multiset(a) + multiset(b)
    ensures IsTopK(key, k, multiset(a) + multiset(b), r)
  {
    NoLarger(multiset(r), multiset(a) + multiset(b));
    assert |multiset(r)| == |r| && |multiset(a) + multiset(b)| == |a| + |b|;
    NarrowerTopK(key, k, A + B, multiset(a) + multiset(b), r);
  }

  /** Every answer over A + B is one the two limited branches can produce. */
  lemma PushdownComplete<T(!new)>(key: T -> int, k: nat, A: multiset<T>, B: multiset<T>, r: seq<T>) returns (a: seq<T>, b: seq<T>)
    requires IsTopK(key, k, A + B, r)
    ensures IsTopK(key, k, A, a) && IsTopK(key, k, B, b) && IsTopK(key, k, multiset(a) + multiset(b), r)
  {
    var ra := multiset(r) * A;
    var rb := multiset(r) - ra;
    assert multiset(r) == ra + rb;
    SplitDominates(key, A, B, multiset(r));
    a := ExtendToTopK(key, k, A, ra);
    b := ExtendToTopK(key, k, B, rb);
    BranchesProduce(key, k, A, B, a, b, r);
  }

  // ---- counting the same rows twice ----------------------------------------------------------------------

  /** The elements strictly above `t`. */
  ghost function Above<T(!new)>(key: T -> int, input: multiset<T>, t: int): (r: multiset<T>)
    ensures forall x :: r[x] == if key(x) > t then input[x] else 0
    decreases |input|
  {
    if |input| == 0 then multiset{}
    else
      var x :| x in input;
      var rest := Above(key, input - multiset{x}, t);
      assert input == (input - multiset{x}) + multiset{x};
      if key(x) > t then rest + multiset{x} else rest
  }

  /** No element of the doubled part can be returned once too often. */
  ghost predicate LimitTooSmall<T(!new)>(key: T -> int, k: nat, O: multiset<T>, S: multiset<T>) {
    forall s :: s in S ==> k <= |Above(key, O, key(s))| + O[s]
  }

  lemma NewerAllTaken<T(!new)>(key: T -> int, input: multiset<T>, chosen: multiset<T>, x: T, y: T)
    requires Dominates(key, input, chosen) && x in chosen && key(y) > key(x)
    ensures chosen[y] >= input[y]
  {
  }

  lemma ExtraCopyNeedsRoom<T(!new)>(key: T -> int, k: nat, O: multiset<T>, S: multiset<T>, r: seq<T>, x: T)
    requires S <= O && IsTopK(key, k, O + S, r) && multiset(r)[x] > O[x]
    ensures x in S && k > |Above(key, O, key(x))| + O[x]
  {
    var above := Above(key, O, key(x));
    var q := above[x := O[x] + 1];
    assert above[x] == 0;
    forall y ensures q[y] <= multiset(r)[y] {
      if key(y) > key(x) { NewerAllTaken(key, O + S, multiset(r), x, y); }
    }
    assert multiset(r) == q + (multiset(r) - q);
  }

  lemma EnoughRows<T(!new)>(key: T -> int, k: nat, O: multiset<T>, S: multiset<T>)
    requires S <= O && LimitTooSmall(key, k, O, S) && |S| > 0
    ensures k <= |O|
  {
    var s :| s in S;
    var q := Above(key, O, key(s))[s := O[s]];
    assert q <= O;
    assert O == q + (O - q);
  }

  lemma DoubledIsFine<T(!new)>(key: T -> int, k: nat, O: multiset<T>, S: multiset<T>, r: seq<T>)
    requires S <= O && LimitTooSmall(key, k, O, S) && IsTopK(key, k, O + S, r)
    ensures IsTopK(key, k, O, r)
  {
    forall x ensures multiset(r)[x] <= O[x] {
      if multiset(r)[x] > O[x] { ExtraCopyNeedsRoom(key, k, O, S, r, x); }
    }
    if |S| > 0 { EnoughRows(key, k, O, S); }
    NarrowerTopK(key, k, O + S, O, r);
  }

  lemma UpdateSize<T>(m: multiset<T>, x: T, n: nat)
    requires m[x] == 0
    ensures |m[x := n]| == |m| + n
  {
  }

  /** With something below `x` in it, an answer holds all that is above `x`, all copies of `x`, and that. */
  lemma AllNotBelow<T(!new)>(key: T -> int, O: multiset<T>, r: multiset<T>, x: T, y: T)
    requires Dominates(key, O, r) && y in r && key(y) < key(x)
    ensures Above(key, O, key(x))[x := O[x]] + multiset{y} <= r
  {
    var q := Above(key, O, key(x))[x := O[x]];
    forall z ensures (q + multiset{y})[z] <= r[z] {
      if z != y && q[z] > 0 { NewerAllTaken(key, O, r, y, z); }
    }
  }

  /** An answer already full of what is not below `x` has nothing below it. */
  lemma NothingBelow<T(!new)>(key: T -> int, k: nat, O: multiset<T>, r: seq<T>, x: T, y: T)
    requires IsTopK(key, k, O, r) && y in multiset(r) && k <= |Above(key, O, key(x))| + O[x]
    ensures key(x) <= key(y)
  {
    if key(y) < key(x) {
      var above := Above(key, O, key(x));
      UpdateSize(above, x, O[x]);
      AllNotBelow(key, O, multiset(r), x, y);
      NoLarger(above[x := O[x]] + multiset{y}, multiset(r));
    }
  }

  lemma NoLarger<T>(p: multiset<T>, q: multiset<T>)
    requires p <= q
    ensures |p| <= |q|
  {
    assert q == p + (q - p);
  }

  lemma StillAnAnswer<T(!new)>(key: T -> int, k: nat, O: multiset<T>, S: multiset<T>, r: seq<T>)
    requires S <= O && LimitTooSmall(key, k, O, S) && IsTopK(key, k, O, r)
    ensures IsTopK(key, k, O + S, r)
  {
    if |S| > 0 { EnoughRows(key, k, O, S); }
    forall x, y | (O + S)[x] > multiset(r)[x] && y in multiset(r) ensures key(x) <= key(y) {
      if O[x] <= multiset(r)[x] { NothingBelow(key, k, O, r, x, y); }
    }
  }

  /** The newest of the doubled elements that can come back too often. */
  lemma NewestOffender<T(!new)>(key: T -> int, k: nat, O: multiset<T>, S: multiset<T>) returns (s: T)
    requires S <= O && !LimitTooSmall(key, k, O, S)
    ensures s in S && k > |Above(key, O, key(s))| + O[s] && forall x :: x in S ==> key(x) <= key(s)
  {
    var t :| t in S && k > |Above(key, O, key(t))| + O[t];
    s := Newest(key, S);
    if key(s) == key(t) {
      s := t;
    } else {
      var q := Above(key, O, key(s))[s := O[s]];
      assert q <= Above(key, O, key(t));
      assert Above(key, O, key(t)) == q + (Above(key, O, key(t)) - q);
    }
  }

  lemma OnlyNewerBeside<T(!new)>(key: T -> int, O: multiset<T>, S: multiset<T>, s: T, r: multiset<T>)
    requires (forall x :: x in S ==> key(x) <= key(s)) && r <= O + S
    requires forall x :: x in r ==> key(x) >= key(s) && (key(x) == key(s) ==> x == s)
    ensures |r| <= |Above(key, O, key(s))| + r[s]
  {
    var above := Above(key, O, key(s));
    var q := above[s := r[s]];
    assert above[s] == 0 && |q| == |above| + r[s];
    forall x ensures r[x] <= q[x] {
      if x in r && x != s { assert S[x] == 0; }
    }
    assert q == r + (q - r);
  }

  /** An answer that favours the newest offender holds one copy too many. */
  lemma ReachesExtraCopy<T(!new)>(key: T -> int, k: nat, O: multiset<T>, S: multiset<T>, s: T, r: seq<T>)
    requires s in S && k > |Above(key, O, key(s))| + O[s] && forall x :: x in S ==> key(x) <= key(s)
    requires IsTopK(key, k, O + S, r) && Favours(key, O + S, multiset(r), s)
    ensures multiset(r)[s] > O[s]
  {
    if multiset(r)[s] < (O + S)[s] {
      FullWhenSomethingLeft(key, k, O + S, r, s);
      OnlyNewerBeside(key, O, S, s, multiset(r));
    }
  }

  lemma DoubledShows<T(!new)>(key: T -> int, k: nat, O: multiset<T>, S: multiset<T>) returns (r: seq<T>)
    requires S <= O && !LimitTooSmall(key, k, O, S)
    ensures IsTopK(key, k, O + S, r) && !IsTopK(key, k, O, r)
  {
    var s := NewestOffender(key, k, O, S);
    r := Choose(key, k, O + S, s);
    ReachesExtraCopy(key, k, O, S, s, r);
  }

  /**
   Counting the elements of S twice leaves the answers as they are exactly when the limit is too small to reach a
   second copy of any of them.
   */
  lemma DoubledUnnoticedIff<T(!new)>(key: T -> int, k: nat, O: multiset<T>, S: multiset<T>)
    requires S <= O
    ensures (forall r :: IsTopK(key, k, O + S, r) <==> IsTopK(key, k, O, r)) <==> LimitTooSmall(key, k, O, S)
  {
    if LimitTooSmall(key, k, O, S) {
      forall r ensures IsTopK(key, k, O + S, r) <==> IsTopK(key, k, O, r) { SameAnswer(key, k, O, S, r); }
    } else {
      var r := DoubledShows(key, k, O, S);
    }
  }

  lemma SameAnswer<T(!new)>(key: T -> int, k: nat, O: multiset<T>, S: multiset<T>, r: seq<T>)
    requires S <= O && LimitTooSmall(key, k, O, S)
    ensures IsTopK(key, k, O + S, r) <==> IsTopK(key, k, O, r)
  {
    if IsTopK(key, k, O + S, r) { DoubledIsFine(key, k, O, S, r); }
    if IsTopK(key, k, O, r) { StillAnAnswer(key, k, O, S, r); }
  }
}
