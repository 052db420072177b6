/** The running statistics of whale_txns and the high-frequency flag gold makes of them. */
module Windows {
  import opened Receipts
  import opened Relational
  import opened Sums
  import opened WhaleTxns
  import opened Wrappers

  function From(w: Whale): Option<string> { w.from }

  /** PARTITION BY from_address, and GROUP BY it in gold: NULL makes a group of its own. */
  function SentBy(rows: seq<Whale>, a: Option<string>): seq<Whale> { Group(rows, From, a) }

  /** An order the windows may see the rows in: time decides among one sender's rows, nothing decides ties. */
  ghost predicate Placed(rows: seq<Whale>, placed: seq<Whale>) {
    && multiset(placed) == multiset(rows)
    && (forall i, j :: 0 <= i < j < |placed| && placed[i].from == placed[j].from ==> placed[i].time <= placed[j].time)
  }

  /** Row `i` with the sender's rows before it. */
  function CumulTxCount(placed: seq<Whale>, i: nat): nat
    requires i < |placed|
  {
    |SentBy(placed[..i + 1], placed[i].from)|
  }

  function CumulSentEth(placed: seq<Whale>, i: nat): int
    requires i < |placed|
  {
    Sum(SentBy(placed[..i + 1], placed[i].from), Value)
  }

  predicate FlagHighFreq(placed: seq<Whale>, i: nat)
    requires i < |placed|
  {
    CumulTxCount(placed, i) >= 5 && CumulSentEth(placed, i) >= 500 * WEI_PER_ETH
  }

  /** The largest flag of the rows an address sent; an address that sent none has no flag. */
  predicate GoldFlag(placed: seq<Whale>, a: Option<string>) {
    exists i :: 0 <= i < |placed| && placed[i].from == a && FlagHighFreq(placed, i)
  }

  ghost predicate NonNegative(rows: seq<Whale>) {
    forall w :: w in rows ==> w.value >= 0
  }

  lemma SentBySplit(a: seq<Whale>, b: seq<Whale>, from: Option<string>)
    requires NonNegative(b)
    ensures SentBy(a + b, from) == SentBy(a, from) + SentBy(b, from)
    ensures Sum(SentBy(a + b, from), Value) == Sum(SentBy(a, from), Value) + Sum(SentBy(b, from), Value)
    ensures Sum(SentBy(b, from), Value) >= 0
  {
    GroupAppend(a, b, From, from, Value);
    GroupKeeps(b, From, from);
    SumNonNegative(SentBy(b, from), Value);
  }

  lemma LastCounts(b: seq<Whale>, from: Option<string>)
    requires b != [] && b[|b| - 1].from == from
    ensures SentBy(b, from) != []
  {
    GroupGrows(b, From, from, Value);
  }

  /** Along one sender's rows the count climbs, the total does not fall, and the flag, once up, stays up. */
  lemma RunningGrows(placed: seq<Whale>, i: nat, j: nat)
    requires NonNegative(placed) && i < j < |placed| && placed[i].from == placed[j].from
    ensures CumulTxCount(placed, i) < CumulTxCount(placed, j) && CumulSentEth(placed, i) <= CumulSentEth(placed, j)
    ensures FlagHighFreq(placed, i) ==> FlagHighFreq(placed, j)
  {
    var a, b := placed[..i + 1], placed[i + 1..j + 1];
    assert placed[..j + 1] == a + b;
    SentBySplit(a, b, placed[j].from);
    LastCounts(b, placed[j].from);
  }

  lemma SentByLast(placed: seq<Whale>, a: Option<string>)
    requires placed != []
    ensures var n := |placed| - 1;
      SentBy(placed, a) == if placed[n].from == a then SentBy(placed[..n], a) + [placed[n]] else SentBy(placed[..n], a)
  {
    GroupGrows(placed, From, a, Value);
  }

  /** An address's last row carries all it sent. */
  lemma {:induction false} LastRow(placed: seq<Whale>, a: Option<string>) returns (i: nat)
    requires placed != [] && SentBy(placed, a) != []
    ensures i < |placed| && placed[i].from == a && SentBy(placed[..i + 1], a) == SentBy(placed, a)
  {
    var n := |placed| - 1;
    SentByLast(placed, a);
    if placed[n].from == a {
      i := n;
      assert placed[..n + 1] == placed;
    } else {
      NoneSent(a);
      i := LastRow(placed[..n], a);
      assert placed[..n][..i + 1] == placed[..i + 1];
    }
  }

  lemma NoneSent(a: Option<string>)
    ensures SentBy([], a) == []
  {
  }

  lemma NoneExceeds(placed: seq<Whale>, i: nat)
    requires NonNegative(placed) && i < |placed|
    ensures CumulTxCount(placed, i) <= |SentBy(placed, placed[i].from)|
    ensures CumulSentEth(placed, i) <= Sum(SentBy(placed, placed[i].from), Value)
  {
    assert placed == placed[..i + 1] + placed[i + 1..];
    SentBySplit(placed[..i + 1], placed[i + 1..], placed[i].from);
  }

  /** Whatever order the ties fall in, gold flags an address exactly by the day's totals. */
  lemma FlagIsOfTotals(rows: seq<Whale>, placed: seq<Whale>, a: Option<string>)
    requires NonNegative(rows) && Placed(rows, placed)
    ensures GoldFlag(placed, a) <==> |SentBy(rows, a)| >= 5 && Sum(SentBy(rows, a), Value) >= 500 * WEI_PER_ETH
  {
    GroupOfBag(rows, placed, From, a, Value);
    forall w | w in placed ensures w.value >= 0 {
      assert w in multiset(placed);
      assert w in rows;
    }
    if GoldFlag(placed, a) {
      var i :| 0 <= i < |placed| && placed[i].from == a && FlagHighFreq(placed, i);
      NoneExceeds(placed, i);
    }
    if |SentBy(rows, a)| >= 5 && Sum(SentBy(rows, a), Value) >= 500 * WEI_PER_ETH {
      NoneSent(a);
      var i := LastRow(placed, a);
      assert FlagHighFreq(placed, i);
    }
  }

  /** So the order silver happens to use never reaches gold. */
  lemma OrderNeverReachesGold(rows: seq<Whale>, one: seq<Whale>, other: seq<Whale>, a: Option<string>)
    requires NonNegative(rows) && Placed(rows, one) && Placed(rows, other)
    ensures GoldFlag(one, a) <==> GoldFlag(other, a)
  {
    FlagIsOfTotals(rows, one, a);
    FlagIsOfTotals(rows, other, a);
  }

  lemma {:induction false} SentAtLeast(rows: seq<Whale>, a: Option<string>, least: int)
    requires forall w :: w in rows ==> w.value >= least
    ensures Sum(SentBy(rows, a), Value) >= |SentBy(rows, a)| * least
  {
    if rows != [] {
      var n := |rows| - 1;
      SentAtLeast(rows[..n], a, least);
      GroupGrows(rows, From, a, Value);
      assert rows[n] in rows;
      assert (|SentBy(rows[..n], a)| + 1) * least == |SentBy(rows[..n], a)| * least + least;
    }
  }

  /** With the limit of 100 ETH the second half of the flag's condition is implied by the first. */
  lemma FiveWhalesSuffice(rows: seq<Whale>, placed: seq<Whale>, a: Option<string>)
    requires Placed(rows, placed) && forall w :: w in rows ==> w.value >= 100 * WEI_PER_ETH
    ensures GoldFlag(placed, a) <==> |SentBy(rows, a)| >= 5
  {
    FlagIsOfTotals(rows, placed, a);
    SentAtLeast(rows, a, 100 * WEI_PER_ETH);
  }
}
