/** The relational operators the queries and transforms are made of, on lists of rows. */
module Relational {
  import opened Wrappers

  function Where<T>(rows: seq<T>, p: T -> bool): seq<T> {
    if rows == [] then []
    else Where(rows[..|rows| - 1], p) + if p(rows[|rows| - 1]) then [rows[|rows| - 1]] else []
  }

  function Select<A, B>(rows: seq<A>, f: A -> B): seq<B> {
    seq(|rows|, i requires 0 <= i < |rows| => f(rows[i]))
  }

  /** The rows of `right` that join with `a`. */
  function Partners<A, B>(a: A, right: seq<B>, on: (A, B) -> bool): seq<B> {
    Where(right, b => on(a, b))
  }

  /** rows LEFT JOIN right ON on: every match, or one row with NULL when there is none. */
  function LeftJoin<A, B>(rows: seq<A>, right: seq<B>, on: (A, B) -> bool): seq<(A, Option<B>)> {
    if rows == [] then []
    else
      var a := rows[|rows| - 1];
      var found := Partners(a, right, on);
      LeftJoin(rows[..|rows| - 1], right, on) +
      if found == [] then [(a, None)] else Select(found, b => (a, Some(b)))
  }

  /** The one row of `right` that joins with `a`, if any does. */
  function Match<A, B>(a: A, right: seq<B>, on: (A, B) -> bool): Option<B> {
    var found := Partners(a, right, on);
    if found == [] then None else Some(found[0])
  }

  lemma {:induction false} WhereMeaning<T>(rows: seq<T>, p: T -> bool)
    ensures forall x :: x in Where(rows, p) <==> x in rows && p(x)
    ensures forall x :: multiset(Where(rows, p))[x] == if p(x) then multiset(rows)[x] else 0
  {
    if rows != [] {
      var k := |rows| - 1;
      WhereMeaning(rows[..k], p);
      assert rows == rows[..k] + [rows[k]];
    }
  }

  lemma {:induction false} WhereKeeps<T>(rows: seq<T>, p: T -> bool)
    ensures forall x :: x in Where(rows, p) <==> x in rows && p(x)
  {
    if rows != [] {
      WhereKeeps(rows[..|rows| - 1], p);
      assert rows == rows[..|rows| - 1] + [rows[|rows| - 1]];
    }
  }

  lemma {:induction false} WhereNone<T>(rows: seq<T>, p: T -> bool)
    requires forall x :: x in rows ==> !p(x)
    ensures Where(rows, p) == []
  {
    if rows != [] { WhereNone(rows[..|rows| - 1], p); }
  }

  lemma {:induction false} WhereAppend<T>(a: seq<T>, b: seq<T>, p: T -> bool)
    ensures Where(a + b, p) == Where(a, p) + Where(b, p)
  {
    if b == [] {
      assert a + b == a;
    } else {
      WhereAppend(a, b[..|b| - 1], p);
      assert (a + b)[..|a + b| - 1] == a + b[..|b| - 1];
    }
  }

  ghost predicate AtMostOneMatch<A, B>(rows: seq<A>, right: seq<B>, on: (A, B) -> bool) {
    forall a :: a in rows ==> |Partners(a, right, on)| <= 1
  }

  lemma JoinOneMore<A, B>(rows: seq<A>, right: seq<B>, on: (A, B) -> bool)
    requires rows != [] && |Partners(rows[|rows| - 1], right, on)| <= 1
    ensures var k := |rows| - 1;
      LeftJoin(rows, right, on) == LeftJoin(rows[..k], right, on) + [(rows[k], Match(rows[k], right, on))]
  {
    var found := Partners(rows[|rows| - 1], right, on);
    if found != [] { assert found == [found[0]]; }
  }

  lemma SelectOneMore<A, B>(rows: seq<A>, f: A -> B)
    requires rows != []
    ensures Select(rows, f) == Select(rows[..|rows| - 1], f) + [f(rows[|rows| - 1])]
  {
  }

  /** A join in which every row has at most one partner keeps the rows, one for one and in order. */
  lemma {:induction false} LeftJoinKeepsRows<A, B>(rows: seq<A>, right: seq<B>, on: (A, B) -> bool)
    requires AtMostOneMatch(rows, right, on)
    ensures LeftJoin(rows, right, on) == Select(rows, a => (a, Match(a, right, on)))
  {
    if rows != [] {
      var k := |rows| - 1;
      assert forall a :: a in rows[..k] ==> a in rows;
      LeftJoinKeepsRows(rows[..k], right, on);
      assert rows[k] in rows;
      JoinOneMore(rows, right, on);
      SelectOneMore(rows, a => (a, Match(a, right, on)));
    }
  }

  lemma {:induction false} WhereAtMostOne<T>(rows: seq<T>, p: T -> bool)
    requires forall i, j :: 0 <= i < j < |rows| ==> !(p(rows[i]) && p(rows[j]))
    ensures |Where(rows, p)| <= 1
    ensures Where(rows, p) == [] <==> forall i :: 0 <= i < |rows| ==> !p(rows[i])
  {
    if rows != [] {
      var n := |rows| - 1;
      assert forall i :: 0 <= i < n ==> rows[..n][i] == rows[i];
      WhereAtMostOne(rows[..n], p);
    }
  }

  /** Where no two rows of `right` can join with `a`, there is at most one partner. */
  lemma PartnerUnique<A, B>(a: A, right: seq<B>, on: (A, B) -> bool)
    requires forall i, j :: 0 <= i < j < |right| ==> !(on(a, right[i]) && on(a, right[j]))
    ensures |Partners(a, right, on)| <= 1
    ensures Match(a, right, on) == None <==> forall i :: 0 <= i < |right| ==> !on(a, right[i])
    ensures Match(a, right, on).Some? ==> Match(a, right, on).value in right && on(a, Match(a, right, on).value)
  {
    WhereAtMostOne(right, b => on(a, b));
    WhereKeeps(right, b => on(a, b));
    if Match(a, right, on).Some? { assert Partners(a, right, on)[0] in Partners(a, right, on); }
  }

  /** Filtering what was computed from the rows is computing from the filtered rows. */
  lemma {:induction false} WhereSelect<A, B>(rows: seq<A>, f: A -> B, p: B -> bool, q: A -> bool)
    requires forall a :: a in rows ==> p(f(a)) == q(a)
    ensures Where(Select(rows, f), p) == Select(Where(rows, q), f)
  {
    if rows != [] {
      var n := |rows| - 1;
      assert Select(rows, f)[..n] == Select(rows[..n], f);
      WhereSelect(rows[..n], f, p, q);
    }
  }

  lemma {:induction false} JoinFrom<A, B>(rows: seq<A>, right: seq<B>, on: (A, B) -> bool)
    ensures forall p :: p in LeftJoin(rows, right, on) ==> p.0 in rows
  {
    if rows != [] { JoinFrom(rows[..|rows| - 1], right, on); }
  }

  /** What is in the join: every pair that matches, and every row without a match beside nothing. */
  lemma {:induction false} JoinMeaning<A, B(!new)>(rows: seq<A>, right: seq<B>, on: (A, B) -> bool, p: (A, Option<B>))
    ensures p in LeftJoin(rows, right, on) <==>
      p.0 in rows && match p.1
                     case Some(b) => b in right && on(p.0, b)
                     case None => forall b :: b in right ==> !on(p.0, b)
  {
    if rows != [] {
      var n := |rows| - 1;
      JoinMeaning(rows[..n], right, on, p);
      assert rows == rows[..n] + [rows[n]];
      JoinAdds(rows[n], right, on, p);
    }
  }

  lemma JoinAdds<A, B(!new)>(a: A, right: seq<B>, on: (A, B) -> bool, p: (A, Option<B>))
    ensures var found := Partners(a, right, on);
      p in (if found == [] then [(a, None)] else Select(found, b => (a, Some(b)))) <==>
      p.0 == a && match p.1
                  case Some(b) => b in right && on(a, b)
                  case None => forall b :: b in right ==> !on(a, b)
  {
    var found := Partners(a, right, on);
    WhereKeeps(right, b => on(a, b));
    if found != [] {
      var added := Select(found, b => (a, Some(b)));
      assert found[0] in found;
      forall b | b in found ensures (a, Some(b)) in added {
        var i :| 0 <= i < |found| && found[i] == b;
        assert added[i] == (a, Some(b));
      }
      forall q | q in added ensures q.0 == a && q.1.Some? && q.1.value in found {
        var i :| 0 <= i < |added| && added[i] == q;
        assert q == (a, Some(found[i]));
      }
    }
  }

  lemma {:induction false} JoinNeverShrinks<A, B>(rows: seq<A>, right: seq<B>, on: (A, B) -> bool)
    ensures |LeftJoin(rows, right, on)| >= |rows|
  {
    if rows != [] { JoinNeverShrinks(rows[..|rows| - 1], right, on); }
  }

  /** A left join keeps the number of rows exactly when no row has two partners. */
  lemma {:induction false} JoinKeepsCountIff<A, B>(rows: seq<A>, right: seq<B>, on: (A, B) -> bool)
    ensures |LeftJoin(rows, right, on)| == |rows| <==> AtMostOneMatch(rows, right, on)
  {
    if rows != [] {
      var n := |rows| - 1;
      JoinNeverShrinks(rows[..n], right, on);
      JoinKeepsCountIff(rows[..n], right, on);
      assert rows == rows[..n] + [rows[n]];
      assert forall a :: a in rows <==> a in rows[..n] || a == rows[n];
    }
  }

  lemma {:induction false} PartnersAre<A, B>(a: A, right: seq<B>, on: (A, B) -> bool, p: B -> bool)
    requires forall b :: b in right ==> on(a, b) == p(b)
    ensures Partners(a, right, on) == Where(right, p)
  {
    if right != [] { PartnersAre(a, right[..|right| - 1], on, p); }
  }
}
