/** The daily token ranking (src/gold/transform/token_popularity_daily.py), with real numbers for its doubles. */
module Popularity {
  import opened Relational
  import opened Sums

  /** A token's day: transfers, the estimated number of distinct pairs, and the volume. */
  datatype Token = Token(txCount: nat, pairs: nat, volume: real)

  const WEIGHT_TX_COUNT := 0.55
  const WEIGHT_UNIQUE_ADDRESSES := 0.45
  const WEIGHT_TOTAL_VOLUME := 0.0

  function TxCount(t: Token): real { t.txCount as real }
  function Pairs(t: Token): real { t.pairs as real }
  function Volume(t: Token): real { t.volume }

  function Lowest(rows: seq<Token>, f: Token -> real): (r: real)
    requires rows != []
    ensures forall t :: t in rows ==> r <= f(t)
  {
    var last := f(rows[|rows| - 1]);
    if |rows| == 1 then last
    else
      var before := Lowest(rows[..|rows| - 1], f);
      assert rows == rows[..|rows| - 1] + [rows[|rows| - 1]];
      if last < before then last else before
  }

  function Highest(rows: seq<Token>, f: Token -> real): (r: real)
    requires rows != []
    ensures forall t :: t in rows ==> f(t) <= r
  {
    var last := f(rows[|rows| - 1]);
    if |rows| == 1 then last
    else
      var before := Highest(rows[..|rows| - 1], f);
      assert rows == rows[..|rows| - 1] + [rows[|rows| - 1]];
      if last > before then last else before
  }

  function Rescaled(x: real, low: real, high: real): real {
    (x - low) / if high - low == 0.0 then 1.0 else high - low
  }

  /** _min_max_norm: a constant column divides by 1. */
  function Norm(rows: seq<Token>, f: Token -> real, t: Token): real
    requires rows != []
  {
    Rescaled(f(t), Lowest(rows, f), Highest(rows, f))
  }

  lemma Quotient(x: real, y: real, d: real)
    requires 0.0 <= x <= y && d > 0.0
    ensures 0.0 <= x / d <= y / d && d / d == 1.0
  {
  }

  lemma NormInUnit(rows: seq<Token>, f: Token -> real, t: Token)
    requires t in rows
    ensures 0.0 <= Norm(rows, f, t) <= 1.0
  {
    var low, high := Lowest(rows, f), Highest(rows, f);
    if high - low == 0.0 { assert f(t) == low; } else { Quotient(f(t) - low, high - low, high - low); }
  }

  lemma NormMonotone(rows: seq<Token>, f: Token -> real, a: Token, b: Token)
    requires a in rows && b in rows && f(a) <= f(b)
    ensures Norm(rows, f, a) <= Norm(rows, f, b)
  {
    var low, high := Lowest(rows, f), Highest(rows, f);
    Quotient(f(a) - low, f(b) - low, if high - low == 0.0 then 1.0 else high - low);
  }

  function Weighted(tx: real, pairs: real, volume: real): real {
    tx * WEIGHT_TX_COUNT + pairs * WEIGHT_UNIQUE_ADDRESSES + volume * WEIGHT_TOTAL_VOLUME
  }

  lemma {:induction false} Attained(rows: seq<Token>, f: Token -> real)
    requires rows != []
    ensures exists t :: t in rows && f(t) == Lowest(rows, f)
    ensures exists t :: t in rows && f(t) == Highest(rows, f)
  {
    var n := |rows| - 1;
    assert rows[n] in rows;
    if n > 0 {
      Attained(rows[..n], f);
      assert forall t :: t in rows[..n] ==> t in rows;
    }
  }

  /** A column that is not constant spreads over the whole unit: it has a 0 and a 1.  A constant one is all 0. */
  lemma NormSpreads(rows: seq<Token>, f: Token -> real)
    requires rows != []
    ensures exists t :: t in rows && Norm(rows, f, t) == 0.0
    ensures (exists t :: t in rows && Norm(rows, f, t) == 1.0) <==> (exists a, b :: a in rows && b in rows && f(a) != f(b))
  {
    Attained(rows, f);
    var low :| low in rows && f(low) == Lowest(rows, f);
    var high :| high in rows && f(high) == Highest(rows, f);
    assert Norm(rows, f, low) == 0.0;
    if f(low) != f(high) {
      Quotient(0.0, f(high) - f(low), f(high) - f(low));
      assert Norm(rows, f, high) == 1.0;
    } else {
      assert forall t :: t in rows ==> f(t) == f(low);
    }
  }

  lemma BoundsAre(rows: seq<Token>, f: Token -> real, low: Token, high: Token)
    requires low in rows && high in rows && forall x :: x in rows ==> f(low) <= f(x) <= f(high)
    ensures Lowest(rows, f) == f(low) && Highest(rows, f) == f(high)
  {
    Attained(rows, f);
  }

  lemma RescaledIsEven(x: real, low: real, high: real)
    ensures low != high ==> Rescaled(x, low, high) == (x - low) / (high - low)
    ensures low != high ==> Rescaled(x, low, high) * (high - low) == x - low
  {
    if low != high { Times(x - low, high - low); }
  }

  lemma Times(x: real, d: real)
    requires d != 0.0
    ensures (x / d) * d == x
  {
  }

  /** Between its ends a column is scaled evenly: a token's norm is its distance from the low end in parts of the whole. */
  lemma NormIsEven(rows: seq<Token>, f: Token -> real, low: Token, high: Token, t: Token)
    requires low in rows && high in rows && t in rows && forall x :: x in rows ==> f(low) <= f(x) <= f(high)
    ensures f(low) != f(high) ==> Norm(rows, f, t) == (f(t) - f(low)) / (f(high) - f(low))
    ensures Norm(rows, f, t) * (f(high) - f(low)) == f(t) - f(low)
    ensures f(low) == f(high) ==> Norm(rows, f, t) == 0.0
  {
    BoundsAre(rows, f, low, high);
    RescaledIsEven(f(t), f(low), f(high));
  }

  /** popularity_score, in ten-thousandths: the weighted norms, rounded half up to four decimals. */
  function Score(rows: seq<Token>, t: Token): int
    requires rows != []
  {
    (Weighted(Norm(rows, TxCount, t), Norm(rows, Pairs, t), Norm(rows, Volume, t)) * 10000.0 + 0.5).Floor
  }

  /** rank() by descending score. */
  function RankOf(rows: seq<Token>, t: Token): nat
    requires rows != []
  {
    1 + |Where(rows, (x: Token) => Score(rows, x) > Score(rows, t))|
  }

  /** The score is a number from 0 to 1. */
  lemma ScoreInUnit(rows: seq<Token>, t: Token)
    requires t in rows
    ensures 0 <= Score(rows, t) <= 10000
  {
    NormInUnit(rows, TxCount, t);
    NormInUnit(rows, Pairs, t);
  }

  /** The two norms count 0.55 and 0.45; the score is the nearest ten-thousandth, the upper one of two as near. */
  lemma ScoreIsNearest(rows: seq<Token>, t: Token)
    requires t in rows
    ensures var x := 5_500.0 * Norm(rows, TxCount, t) + 4_500.0 * Norm(rows, Pairs, t);
      x - 0.5 < Score(rows, t) as real <= x + 0.5
  {
  }

  /** So from the transfers and pairs of the day's extremes it is this number. */
  lemma ScoreFromCounts(rows: seq<Token>, t: Token, few: Token, many: Token, narrow: Token, wide: Token)
    requires t in rows && few in rows && many in rows && narrow in rows && wide in rows
    requires few.txCount < many.txCount && forall x :: x in rows ==> few.txCount <= x.txCount <= many.txCount
    requires narrow.pairs < wide.pairs && forall x :: x in rows ==> narrow.pairs <= x.pairs <= wide.pairs
    ensures var x := 5_500.0 * Part(t.txCount, few.txCount, many.txCount) + 4_500.0 * Part(t.pairs, narrow.pairs, wide.pairs);
      x - 0.5 < Score(rows, t) as real <= x + 0.5
  {
    NormIsEven(rows, TxCount, few, many, t);
    NormIsEven(rows, Pairs, narrow, wide, t);
    ScoreIsNearest(rows, t);
  }

  /** How far `n` is on the way from `low` to `high`. */
  function Part(n: nat, low: nat, high: nat): real
    requires low < high
  {
    (n as real - low as real) / (high as real - low as real)
  }

  /** A token's rank is its place among the day's by falling score, ties together. */
  lemma RankIsItsPlace(rows: seq<Token>, sorted: seq<Token>, t: Token)
    requires t in rows && multiset(sorted) == multiset(rows)
    requires forall i, j :: 0 <= i < j < |sorted| ==> Score(rows, sorted[i]) >= Score(rows, sorted[j])
    ensures var r := RankOf(rows, t);
      1 <= r <= |sorted| && Score(rows, sorted[r - 1]) == Score(rows, t) &&
      forall k :: 0 <= k < r - 1 ==> Score(rows, sorted[k]) > Score(rows, t)
  {
    RankIsPlace(rows, sorted, x => Score(rows, x), t, (x: Token) => Score(rows, x) > Score(rows, t));
  }

  lemma {:induction false} FewerBeat(rows: seq<Token>, day: seq<Token>, s: int, s': int)
    requires day != [] && s' <= s
    ensures |Where(rows, (x: Token) => Score(day, x) > s)| <= |Where(rows, (x: Token) => Score(day, x) > s')|
  {
    if rows != [] { FewerBeat(rows[..|rows| - 1], day, s, s'); }
  }

  /** At least as many transfers and as many pairs as another: a rank at least as good, constant columns or not. */
  lemma MoreIsNoWorse(rows: seq<Token>, a: Token, b: Token)
    requires a in rows && b in rows && a.txCount >= b.txCount && a.pairs >= b.pairs
    ensures RankOf(rows, a) <= RankOf(rows, b)
  {
    NormMonotone(rows, TxCount, b, a);
    NormMonotone(rows, Pairs, b, a);
    assert Score(rows, b) <= Score(rows, a);
    FewerBeat(rows, rows, Score(rows, a), Score(rows, b));
  }

  /** The token that leads both columns is first. */
  lemma LeaderIsFirst(rows: seq<Token>, a: Token)
    requires a in rows && forall x :: x in rows ==> x.txCount <= a.txCount && x.pairs <= a.pairs
    ensures RankOf(rows, a) == 1
  {
    forall x | x in rows ensures Score(rows, x) <= Score(rows, a) {
      NormMonotone(rows, TxCount, x, a);
      NormMonotone(rows, Pairs, x, a);
    }
    WhereNone(rows, (x: Token) => Score(rows, x) > Score(rows, a));
  }

  lemma {:induction false} SameBounds(rows: seq<Token>, other: seq<Token>, f: Token -> real)
    requires |rows| == |other| > 0 && forall i :: 0 <= i < |rows| ==> f(rows[i]) == f(other[i])
    ensures Lowest(rows, f) == Lowest(other, f) && Highest(rows, f) == Highest(other, f)
  {
    if |rows| > 1 { SameBounds(rows[..|rows| - 1], other[..|other| - 1], f); }
  }

  lemma SameNorm(rows: seq<Token>, other: seq<Token>, f: Token -> real, i: nat)
    requires i < |rows| == |other| && forall k :: 0 <= k < |rows| ==> f(rows[k]) == f(other[k])
    ensures Norm(rows, f, rows[i]) == Norm(other, f, other[i])
  {
    SameBounds(rows, other, f);
    var x, low, high := f(rows[i]), Lowest(rows, f), Highest(rows, f);
    assert Norm(rows, f, rows[i]) == Rescaled(x, low, high);
    assert Norm(other, f, other[i]) == Rescaled(x, low, high);
  }

  lemma VolumeWeighsNothing(tx: real, pairs: real, v: real, v': real)
    ensures Weighted(tx, pairs, v) == Weighted(tx, pairs, v')
  {
  }

  /** Volume has no part in it: days that differ in volumes only give every token the same score. */
  lemma VolumeNeverCounts(rows: seq<Token>, other: seq<Token>, i: nat)
    requires i < |rows| == |other|
    requires forall k :: 0 <= k < |rows| ==> rows[k].txCount == other[k].txCount && rows[k].pairs == other[k].pairs
    ensures Score(rows, rows[i]) == Score(other, other[i])
  {
    SameNorm(rows, other, TxCount, i);
    SameNorm(rows, other, Pairs, i);
    VolumeWeighsNothing(Norm(rows, TxCount, rows[i]), Norm(rows, Pairs, rows[i]),
                        Norm(rows, Volume, rows[i]), Norm(other, Volume, other[i]));
  }

  /** What the weights are worth: leading in transfers alone scores 0.55, leading in pairs alone 0.45. */
  lemma TransfersOutweighPairs(rows: seq<Token>, a: Token, b: Token)
    requires a in rows && b in rows && a.txCount > b.txCount && a.pairs < b.pairs
    requires forall x :: x in rows ==> b.txCount <= x.txCount <= a.txCount && a.pairs <= x.pairs <= b.pairs
    ensures Score(rows, a) == 5500 && Score(rows, b) == 4500 && RankOf(rows, a) < RankOf(rows, b)
  {
    Ends(rows, TxCount, b, a);
    Ends(rows, Pairs, a, b);
    FewerBeat(rows, rows, 5500, 4500);
    StrictlyFewer(rows, rows, 5500, 4500, a);
  }

  lemma Ends(rows: seq<Token>, f: Token -> real, low: Token, high: Token)
    requires low in rows && high in rows && f(low) < f(high) && forall x :: x in rows ==> f(low) <= f(x) <= f(high)
    ensures Norm(rows, f, low) == 0.0 && Norm(rows, f, high) == 1.0
  {
    Attained(rows, f);
    assert Lowest(rows, f) == f(low) && Highest(rows, f) == f(high);
    Quotient(0.0, f(high) - f(low), f(high) - f(low));
  }

  lemma {:induction false} StrictlyFewer(rows: seq<Token>, day: seq<Token>, s: int, s': int, a: Token)
    requires day != [] && a in rows && s' < Score(day, a) <= s
    ensures |Where(rows, (x: Token) => Score(day, x) > s)| < |Where(rows, (x: Token) => Score(day, x) > s')|
  {
    var n := |rows| - 1;
    FewerBeat(rows[..n], day, s, s');
    if rows[n] != a {
      assert rows == rows[..n] + [rows[n]];
      StrictlyFewer(rows[..n], day, s, s', a);
    }
  }
}
