/** Full outer joins, and what they keep of a total. */
module OuterJoins {
  import opened Relational
  import opened Sums
  import opened Wrappers

  /** The rows of `left` that join with `b`. */
  function Suitors<A, B>(left: seq<A>, b: B, on: (A, B) -> bool): seq<A> {
    Where(left, a => on(a, b))
  }

  function Alone<A, B>(left: seq<A>, right: seq<B>, on: (A, B) -> bool): seq<B> {
    Where(right, b => Suitors(left, b, on) == [])
  }

  function FromLeft<A, B>(p: (A, Option<B>)): (Option<A>, Option<B>) { (Some(p.0), p.1) }

  function FromRight<A, B>(b: B): (Option<A>, Option<B>) { (None, Some(b)) }

  function OuterJoin<A, B>(left: seq<A>, right: seq<B>, on: (A, B) -> bool): seq<(Option<A>, Option<B>)> {
    Select(LeftJoin(left, right, on), p => FromLeft(p)) + Select(Alone(left, right, on), b => FromRight(b))
  }

  function LeftPart<A, B>(p: (Option<A>, Option<B>), f: A -> int): int { if p.0.Some? then f(p.0.value) else 0 }

  function RightPart<A, B>(p: (Option<A>, Option<B>), g: B -> int): int { if p.1.Some? then g(p.1.value) else 0 }

  ghost predicate OneToOne<A, B>(left: seq<A>, right: seq<B>, on: (A, B) -> bool) {
    AtMostOneMatch(left, right, on) && forall b :: b in right ==> |Suitors(left, b, on)| <= 1
  }

  lemma SuitorUnique<A, B>(left: seq<A>, b: B, on: (A, B) -> bool)
    requires forall i, j :: 0 <= i < j < |left| ==> !(on(left[i], b) && on(left[j], b))
    ensures |Suitors(left, b, on)| <= 1
    ensures Suitors(left, b, on) == [] <==> forall i :: 0 <= i < |left| ==> !on(left[i], b)
  {
    WhereAtMostOne(left, a => on(a, b));
  }

  function MatchedPart<A, B>(a: A, right: seq<B>, on: (A, B) -> bool, g: B -> int): int {
    if Match(a, right, on).Some? then g(Match(a, right, on).value) else 0
  }

  /** What the left rows pick up from the right is what the right rows hand to their suitors. */
  lemma {:induction false} PickedUp<A, B>(left: seq<A>, right: seq<B>, on: (A, B) -> bool, g: B -> int)
    requires AtMostOneMatch(left, right, on)
    ensures Sum(left, a => MatchedPart(a, right, on, g)) == Sum(right, b => g(b) * |Suitors(left, b, on)|)
  {
    if left == [] {
      SumNothing(right, b => g(b) * |Suitors(left, b, on)|);
    } else {
      var n := |left| - 1;
      var a := left[n];
      assert forall x :: x in left[..n] ==> x in left;
      PickedUp(left[..n], right, on, g);
      var before, here := (b: B) => g(b) * |Suitors(left[..n], b, on)|, (b: B) => if on(a, b) then g(b) else 0;
      SumWhere(right, b => on(a, b), g, here);
      assert a in left;
      OneOrNone(Partners(a, right, on), g);
      forall b | b in right ensures g(b) * |Suitors(left, b, on)| == before(b) + here(b) {
        var k := |Suitors(left[..n], b, on)|;
        assert g(b) * (k + 1) == g(b) * k + g(b);
      }
      SumPlus(right, before, here, b => g(b) * |Suitors(left, b, on)|);
    }
  }

  lemma OneOrNone<B>(found: seq<B>, g: B -> int)
    requires |found| <= 1
    ensures Sum(found, g) == if found == [] then 0 else g(found[0])
  {
    if found != [] { assert found[..0] == []; }
  }

  lemma {:induction false} SumNothing<T>(rows: seq<T>, f: T -> int)
    requires forall x :: x in rows ==> f(x) == 0
    ensures Sum(rows, f) == 0
  {
    if rows != [] { SumNothing(rows[..|rows| - 1], f); }
  }

  lemma LeftTotal<A, B>(left: seq<A>, right: seq<B>, on: (A, B) -> bool, f: A -> int, part: ((Option<A>, Option<B>)) -> int)
    requires AtMostOneMatch(left, right, on)
    requires forall p :: part(p) == LeftPart(p, f)
    ensures Sum(OuterJoin(left, right, on), part) == Sum(left, f)
  {
    var alone := Select(Alone(left, right, on), b => FromRight(b));
    SumAppend(Select(LeftJoin(left, right, on), p => FromLeft(p)), alone, part);
    SumNothing(alone, part);
    var kept := (p: (A, Option<B>)) => f(p.0);
    SumOver(LeftJoin(left, right, on), p => FromLeft(p), part, kept);
    LeftJoinKeepsRows(left, right, on);
    SumOver(left, a => (a, Match(a, right, on)), kept, f);
  }

  lemma RightTotal<A, B>(left: seq<A>, right: seq<B>, on: (A, B) -> bool, g: B -> int, part: ((Option<A>, Option<B>)) -> int)
    requires OneToOne(left, right, on)
    requires forall p :: part(p) == RightPart(p, g)
    ensures Sum(OuterJoin(left, right, on), part) == Sum(right, g)
  {
    SumAppend(Select(LeftJoin(left, right, on), p => FromLeft(p)), Select(Alone(left, right, on), b => FromRight(b)), part);
    var kept := (p: (A, Option<B>)) => RightPart(FromLeft(p), g);
    SumOver(LeftJoin(left, right, on), p => FromLeft(p), part, kept);
    LeftJoinKeepsRows(left, right, on);
    SumOver(left, a => (a, Match(a, right, on)), kept, a => MatchedPart(a, right, on, g));
    PickedUp(left, right, on, g);
    SumOver(Alone(left, right, on), b => FromRight(b), part, g);
    RestAdds(left, right, on, g);
  }

  /** Matched and unmatched rows of the right together are all of it. */
  lemma RestAdds<A, B>(left: seq<A>, right: seq<B>, on: (A, B) -> bool, g: B -> int)
    requires OneToOne(left, right, on)
    ensures Sum(right, b => g(b) * |Suitors(left, b, on)|) + Sum(Alone(left, right, on), g) == Sum(right, g)
  {
    var rest := (b: B) => if Suitors(left, b, on) == [] then g(b) else 0;
    SumWhere(right, b => Suitors(left, b, on) == [], g, rest);
    forall b | b in right ensures g(b) == g(b) * |Suitors(left, b, on)| + rest(b) {
      assert |Suitors(left, b, on)| <= 1;
    }
    SumPlus(right, b => g(b) * |Suitors(left, b, on)|, rest, g);
  }

  /** A full outer join in which every row has at most one partner keeps the totals of both sides. */
  lemma OuterJoinConserves<A, B>(left: seq<A>, right: seq<B>, on: (A, B) -> bool, f: A -> int, g: B -> int)
    requires OneToOne(left, right, on)
    ensures Sum(OuterJoin(left, right, on), p => LeftPart(p, f)) == Sum(left, f)
    ensures Sum(OuterJoin(left, right, on), p => RightPart(p, g)) == Sum(right, g)
  {
    LeftTotal(left, right, on, f, p => LeftPart(p, f));
    RightTotal(left, right, on, g, p => RightPart(p, g));
  }

  /** Row by row: the left rows with their partner, then the right rows without one. */
  lemma OuterJoinRow<A, B>(left: seq<A>, right: seq<B>, on: (A, B) -> bool, i: nat)
    requires AtMostOneMatch(left, right, on)
    ensures var joined := OuterJoin(left, right, on); var alone := Alone(left, right, on);
      && |joined| == |left| + |alone|
      && (i < |left| ==> joined[i] == (Some(left[i]), Match(left[i], right, on)))
      && (|left| <= i < |joined| ==> joined[i] == (None, Some(alone[i - |left|])))
  {
    LeftJoinKeepsRows(left, right, on);
    var matched := Select(LeftJoin(left, right, on), p => FromLeft(p));
    var rest := Select(Alone(left, right, on), b => FromRight(b));
    assert |matched| == |left| && OuterJoin(left, right, on) == matched + rest;
    if i < |left| {
      assert matched[i] == (Some(left[i]), Match(left[i], right, on));
    } else if i < |left| + |rest| {
      assert (matched + rest)[i] == rest[i - |left|];
    }
  }

  lemma AloneRow<A, B>(left: seq<A>, right: seq<B>, on: (A, B) -> bool, k: nat)
    requires AtMostOneMatch(left, right, on) && k < |Alone(left, right, on)|
    ensures var joined := OuterJoin(left, right, on);
      |left| + k < |joined| && joined[|left| + k] == (None, Some(Alone(left, right, on)[k]))
  {
    OuterJoinRow(left, right, on, |left| + k);
  }
}
