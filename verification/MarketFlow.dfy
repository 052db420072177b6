/**
 The hourly exchange flows and their pressure label (src/gold/transform/market_flow_hourly.py).  Totals and ratios
 have four decimals and are integers here, in units of the fourth.
 */
module MarketFlow {
  import opened Relational
  import opened Rounding
  import opened Sums
  import opened WhaleTxns
  import opened Wrappers

  // ---- the label --------------------------------------------------------------------------------------------------

  datatype Pressure = StrongBuy | MildBuy | Neutral | MildSell | StrongSell

  function Level(p: Pressure): int {
    match p
    case StrongBuy => -2
    case MildBuy => -1
    case Neutral => 0
    case MildSell => 1
    case StrongSell => 2
  }

  /** d / w, first to the precision of the division, which is `e` times finer, and then to four decimals. */
  function Ratio(d: int, w: int, e: int): int
    requires w > 0 && e > 0
  {
    HalfUp(HalfUp(d * 10_000 * e, w), e)
  }

  function RatioColumn(d: int, w: int, e: int): Option<int>
    requires e > 0
  {
    if w <= 0 then None else Some(Ratio(d, w, e))
  }

  function PressureOf(d: int, w: int, e: int): Pressure
    requires e > 0
  {
    var ratio := RatioColumn(d, w, e);
    if d == 0 && w == 0 then Neutral
    else if w == 0 && d > 0 then StrongSell
    else if d == 0 && w > 0 then StrongBuy
    else if ratio.None? then Neutral
    else if ratio.value > 15_000 then StrongSell
    else if ratio.value > 10_000 then MildSell
    else if ratio.value < 6_700 then StrongBuy
    else if ratio.value < 10_000 then MildBuy
    else Neutral
  }

  lemma RatioMonotone(d: int, w: int, d': int, w': int, e: int)
    requires 0 <= d <= d' && 0 < w' <= w && e > 0
    ensures 0 <= Ratio(d, w, e) <= Ratio(d', w', e)
  {
    var x, x' := d * 10_000 * e, d' * 10_000 * e;
    assert x <= x' by { Scale(d * 10_000, d' * 10_000, e); }
    HalfUpMonotone(x, w, x', w');
    AtLeast(x, w, 0);
    HalfUpMonotone(HalfUp(x, w), e, HalfUp(x', w'), e);
    AtLeast(HalfUp(x, w), e, 0);
  }

  lemma RatioAtParity(w: int, e: int)
    requires w > 0 && e > 0
    ensures Ratio(w, w, e) == 10_000
  {
    HalfUpFixesMultiples(10_000 * e, w);
    assert w * 10_000 * e == (10_000 * e) * w;
    HalfUpFixesMultiples(10_000, e);
  }

  /** More deposits never make the label more bullish, more withdrawals never more bearish. */
  lemma PressureMonotone(d: int, w: int, d': int, w': int, e: int)
    requires 0 <= d <= d' && 0 <= w' <= w && e > 0
    ensures Level(PressureOf(d, w, e)) <= Level(PressureOf(d', w', e))
  {
    if w' > 0 { RatioMonotone(d, w, d', w', e); }
  }

  /** Rounding never turns the label around: it says SELL only when deposits exceed withdrawals, BUY only below. */
  lemma PressureIsSound(d: int, w: int, e: int)
    requires 0 <= d && 0 <= w && e > 0
    ensures Level(PressureOf(d, w, e)) > 0 ==> d > w
    ensures Level(PressureOf(d, w, e)) < 0 ==> d < w
  {
    if w > 0 {
      RatioAtParity(w, e);
      if d <= w { RatioMonotone(d, w, w, w, e); }
      if d >= w { RatioMonotone(w, w, d, w, e); }
    }
  }

  lemma RatioAtLeast(d: int, w: int, e: int, q: int)
    requires d >= 0 && w > 0 && e > 0 && e % 2 == 0 && q > 0
    ensures Ratio(d, w, e) >= q <==> 20_000 * d * e >= ((2 * q - 1) * e - 1) * w
  {
    var x := d * 10_000 * e;
    assert x >= 0 by { Scale(0, d * 10_000, e); }
    AtLeast(x, w, 0);
    AtLeast(HalfUp(x, w), e, q);
    var h := (2 * q - 1) * (e / 2);
    Halves(q, e);
    assert h >= 0 by { Scale(0, 2 * q - 1, e / 2); }
    AtLeast(x, w, h);
  }

  lemma Halves(q: int, e: int)
    requires e % 2 == 0
    ensures 2 * ((2 * q - 1) * (e / 2)) == (2 * q - 1) * e
  {
    var f := e / 2;
    assert e == 2 * f;
  }

  /** How far apart they must be: by half of the ratio's last digit, less what the division itself rounds. */
  lemma PressureIff(d: int, w: int, e: int)
    requires d > 0 && w > 0 && e > 0 && e % 2 == 0
    ensures Level(PressureOf(d, w, e)) > 0 <==> 20_000 * d * e >= (20_001 * e - 1) * w
    ensures Level(PressureOf(d, w, e)) < 0 <==> 20_000 * d * e < (19_999 * e - 1) * w
  {
    RatioAtLeast(d, w, e, 10_001);
    RatioAtLeast(d, w, e, 10_000);
  }

  /** The ratio column is NULL exactly where nothing was withdrawn, and else this quotient to four decimals, halves up. */
  lemma RatioIff(d: int, w: int, e: int, r: int)
    requires d >= 0 && w >= 0 && e > 0 && e % 2 == 0
    ensures RatioColumn(d, w, e) == None <==> w == 0
    ensures RatioColumn(d, w, e) == Some(r) <==>
      w > 0 && r >= 0 && 20_000 * d * e < ((2 * r + 1) * e - 1) * w && (r > 0 ==> 20_000 * d * e >= ((2 * r - 1) * e - 1) * w)
  {
    if w > 0 {
      var q := Ratio(d, w, e);
      RatioMonotone(0, w, d, w, e);
      RatioAtLeast(d, w, e, q + 1);
      if q > 0 { RatioAtLeast(d, w, e, q); }
      if r > 0 { RatioAtLeast(d, w, e, r); }
      if r >= 0 { RatioAtLeast(d, w, e, r + 1); }
    }
  }

  /** And for the strong labels: half of the last digit above 1.5, and below 0.67. */
  lemma StrongPressureIff(d: int, w: int, e: int)
    requires d > 0 && w > 0 && e > 0 && e % 2 == 0
    ensures PressureOf(d, w, e) == StrongSell <==> 20_000 * d * e >= (30_001 * e - 1) * w
    ensures PressureOf(d, w, e) == StrongBuy <==> 20_000 * d * e < (13_399 * e - 1) * w
  {
    RatioAtLeast(d, w, e, 15_001);
    RatioAtLeast(d, w, e, 6_700);
  }

  // ---- the table ---------------------------------------------------------------------------------------------------

  /** Four decimals, from the eighteen of an amount. */
  function FourDecimals(amount: int): int { HalfUp(amount, 100_000_000_000_000) }

  datatype FlowTotal = FlowTotal(hour: int, flow: Flow, total: int)
  datatype Pivot = Pivot(hour: int, deposit: int, withdrawal: int)
  datatype FlowRow = FlowRow(
    hour: int, flow: Flow, total: int, deposit: int, withdrawal: int, ratio: Option<int>, pressure: Pressure)

  function HourFlow(w: Whale): (int, Flow) { (w.hour, w.flow) }
  function Hour(w: Whale): int { w.hour }
  function Deposited(w: Whale): int { if w.flow == CexDeposit then w.value else 0 }
  function Withdrawn(w: Whale): int { if w.flow == CexWithdrawal then w.value else 0 }
  predicate IsCex(w: Whale) { w.flow == CexDeposit || w.flow == CexWithdrawal }

  /** What the rows of one hour and flow type add up to. */
  function FlowSum(rows: seq<Whale>, k: (int, Flow)): int { Sum(Group(rows, HourFlow, k), Value) }

  function Totals(rows: seq<Whale>): seq<FlowTotal> {
    Select(Keys(rows, HourFlow), (k: (int, Flow)) => FlowTotal(k.0, k.1, FourDecimals(FlowSum(rows, k))))
  }

  function CexRows(rows: seq<Whale>): seq<Whale> { Where(rows, w => IsCex(w)) }

  function PivotOf(rows: seq<Whale>, h: int): Pivot {
    var here := Group(CexRows(rows), Hour, h);
    Pivot(h, FourDecimals(Sum(here, Deposited)), FourDecimals(Sum(here, Withdrawn)))
  }

  function CexPivot(rows: seq<Whale>): seq<Pivot> { Select(Keys(CexRows(rows), Hour), h => PivotOf(rows, h)) }

  predicate SameHour(t: FlowTotal, p: Pivot) { t.hour == p.hour }

  /** The joined row with its gaps filled. */
  function Filled(t: FlowTotal, p: Option<Pivot>, e: int): FlowRow
    requires e > 0
  {
    if p.None? then FlowRow(t.hour, t.flow, t.total, 0, 0, None, Neutral)
    else
      var d, w := p.value.deposit, p.value.withdrawal;
      FlowRow(t.hour, t.flow, t.total, d, w, RatioColumn(d, w, e), PressureOf(d, w, e))
  }

  function BuildMarketFlow(rows: seq<Whale>, e: int): seq<FlowRow>
    requires e > 0
  {
    Select(LeftJoin(Totals(rows), CexPivot(rows), SameHour), (p: (FlowTotal, Option<Pivot>)) => Filled(p.0, p.1, e))
  }

  /** The pivot's path to an hour's deposits and the grouping's path meet. */
  lemma PivotSums(rows: seq<Whale>, h: int)
    ensures Sum(Group(CexRows(rows), Hour, h), Deposited) == FlowSum(rows, (h, CexDeposit))
    ensures Sum(Group(CexRows(rows), Hour, h), Withdrawn) == FlowSum(rows, (h, CexWithdrawal))
  {
    PathsMeet(rows, h, CexDeposit, Deposited);
    PathsMeet(rows, h, CexWithdrawal, Withdrawn);
  }

  lemma PathsMeet(rows: seq<Whale>, h: int, flow: Flow, part: Whale -> int)
    requires flow == CexDeposit || flow == CexWithdrawal
    requires forall w :: part(w) == if w.flow == flow then w.value else 0
    ensures Sum(Group(CexRows(rows), Hour, h), part) == FlowSum(rows, (h, flow))
  {
    var here := (w: Whale) => if w.hour == h then part(w) else 0;
    var both := (w: Whale) => if w.hour == h && w.flow == flow then w.value else 0;
    SumGroup(CexRows(rows), Hour, h, part, here);
    SumWhere(rows, w => IsCex(w), here, both);
    SumGroup(rows, HourFlow, (h, flow), Value, both);
  }

  /** An hour without a pivot row has no exchange flows at all. */
  lemma NoPivotNoFlow(rows: seq<Whale>, h: int, flow: Flow)
    requires h !in Keys(CexRows(rows), Hour) && (flow == CexDeposit || flow == CexWithdrawal)
    ensures (h, flow) !in Keys(rows, HourFlow) && FlowSum(rows, (h, flow)) == 0
  {
    KeysMeaning(CexRows(rows), Hour);
    KeysMeaning(rows, HourFlow);
    WhereKeeps(rows, w => IsCex(w));
    GroupEmptyIff(rows, HourFlow, (h, flow));
  }

  lemma PivotFound(rows: seq<Whale>, t: FlowTotal)
    ensures |Partners(t, CexPivot(rows), SameHour)| <= 1
    ensures Match(t, CexPivot(rows), SameHour) ==
      if t.hour in Keys(CexRows(rows), Hour) then Some(PivotOf(rows, t.hour)) else None
  {
    var hours, pivots := Keys(CexRows(rows), Hour), CexPivot(rows);
    KeysMeaning(CexRows(rows), Hour);
    PartnerUnique(t, pivots, SameHour);
    if t.hour in hours {
      var i :| 0 <= i < |hours| && hours[i] == t.hour;
      assert SameHour(t, pivots[i]);
    }
  }

  /** A row of the table in terms of the hour's sums; where there is no pivot row the sums are 0. */
  function FlowRowOf(rows: seq<Whale>, k: (int, Flow), e: int): FlowRow
    requires e > 0
  {
    var d := FourDecimals(FlowSum(rows, (k.0, CexDeposit)));
    var w := FourDecimals(FlowSum(rows, (k.0, CexWithdrawal)));
    FlowRow(k.0, k.1, FourDecimals(FlowSum(rows, k)), d, w, RatioColumn(d, w, e), PressureOf(d, w, e))
  }

  lemma FilledIs(rows: seq<Whale>, t: FlowTotal, k: (int, Flow), e: int)
    requires e > 0 && t == FlowTotal(k.0, k.1, FourDecimals(FlowSum(rows, k)))
    ensures Filled(t, Match(t, CexPivot(rows), SameHour), e) == FlowRowOf(rows, k, e)
  {
    PivotFound(rows, t);
    PivotSums(rows, k.0);
    if k.0 !in Keys(CexRows(rows), Hour) {
      NoPivotNoFlow(rows, k.0, CexDeposit);
      NoPivotNoFlow(rows, k.0, CexWithdrawal);
    }
  }

  lemma FlowRowAt(rows: seq<Whale>, e: int, i: nat)
    requires e > 0
    ensures |BuildMarketFlow(rows, e)| == |Keys(rows, HourFlow)|
    ensures i < |BuildMarketFlow(rows, e)| ==> BuildMarketFlow(rows, e)[i] == FlowRowOf(rows, Keys(rows, HourFlow)[i], e)
  {
    var totals := Totals(rows);
    forall t | t in totals ensures |Partners(t, CexPivot(rows), SameHour)| <= 1 {
      PivotFound(rows, t);
    }
    LeftJoinKeepsRows(totals, CexPivot(rows), SameHour);
    if i < |totals| { FilledIs(rows, totals[i], Keys(rows, HourFlow)[i], e); }
  }

  /** One row for each hour and flow type that occurs. */
  lemma OneRowPerFlow(rows: seq<Whale>, e: int, h: int, flow: Flow)
    requires e > 0
    ensures var table := BuildMarketFlow(rows, e);
      && (forall i, j :: 0 <= i < j < |table| ==> (table[i].hour, table[i].flow) != (table[j].hour, table[j].flow))
      && ((exists i :: 0 <= i < |table| && table[i].hour == h && table[i].flow == flow) <==>
          (exists w :: w in rows && w.hour == h && w.flow == flow))
  {
    var keys, table := Keys(rows, HourFlow), BuildMarketFlow(rows, e);
    KeysMeaning(rows, HourFlow);
    forall i: nat ensures |table| == |keys| && (i < |table| ==> (table[i].hour, table[i].flow) == keys[i]) {
      FlowRowAt(rows, e, i);
    }
    if (h, flow) in keys {
      var i :| 0 <= i < |keys| && keys[i] == (h, flow);
      assert table[i].hour == h && table[i].flow == flow;
    }
    if w :| w in rows && w.hour == h && w.flow == flow {
      assert HourFlow(w) == (h, flow);
    }
  }

  /** The deposits on every row of an hour are the total of that hour's deposit row; so for withdrawals. */
  lemma PathsAgree(rows: seq<Whale>, e: int, i: nat, j: nat)
    requires e > 0 && i < |BuildMarketFlow(rows, e)| && j < |BuildMarketFlow(rows, e)|
    requires BuildMarketFlow(rows, e)[i].hour == BuildMarketFlow(rows, e)[j].hour
    ensures var row, other := BuildMarketFlow(rows, e)[i], BuildMarketFlow(rows, e)[j];
      && (other.flow == CexDeposit ==> row.deposit == other.total)
      && (other.flow == CexWithdrawal ==> row.withdrawal == other.total)
  {
    FlowRowAt(rows, e, i);
    FlowRowAt(rows, e, j);
  }

  /** And they are 0 on the rows of an hour that has no such row. */
  lemma NoRowNoFlow(rows: seq<Whale>, e: int, i: nat, flow: Flow)
    requires e > 0 && i < |BuildMarketFlow(rows, e)|
    requires forall j :: 0 <= j < |BuildMarketFlow(rows, e)| && BuildMarketFlow(rows, e)[j].flow == flow
               ==> BuildMarketFlow(rows, e)[j].hour != BuildMarketFlow(rows, e)[i].hour
    ensures flow == CexDeposit ==> BuildMarketFlow(rows, e)[i].deposit == 0
    ensures flow == CexWithdrawal ==> BuildMarketFlow(rows, e)[i].withdrawal == 0
  {
    var h := BuildMarketFlow(rows, e)[i].hour;
    FlowRowAt(rows, e, i);
    OneRowPerFlow(rows, e, h, flow);
    GroupEmptyIff(rows, HourFlow, (h, flow));
    KeysMeaning(rows, HourFlow);
  }

  /** Every total of the table is its hour's and flow's sum to four decimals, halves up, and its ratio is of its own row. */
  lemma TotalsAreNearest(rows: seq<Whale>, e: int, i: nat)
    requires e > 0 && i < |BuildMarketFlow(rows, e)| && forall w :: w in rows ==> w.value >= 0
    ensures var row := BuildMarketFlow(rows, e)[i]; var sum := FlowSum(rows, (row.hour, row.flow));
      && (2 * row.total - 1) * 100_000_000_000_000 <= 2 * sum < (2 * row.total + 1) * 100_000_000_000_000
      && row.deposit >= 0 && row.withdrawal >= 0 && row.ratio == RatioColumn(row.deposit, row.withdrawal, e)
  {
    FlowRowAt(rows, e, i);
    var row := BuildMarketFlow(rows, e)[i];
    SumToFour(rows, (row.hour, row.flow));
    SumToFour(rows, (row.hour, CexDeposit));
    SumToFour(rows, (row.hour, CexWithdrawal));
  }

  lemma SumToFour(rows: seq<Whale>, k: (int, Flow))
    requires forall w :: w in rows ==> w.value >= 0
    ensures var q := FourDecimals(FlowSum(rows, k));
      q >= 0 && (2 * q - 1) * 100_000_000_000_000 <= 2 * FlowSum(rows, k) < (2 * q + 1) * 100_000_000_000_000
  {
    FlowSumPositive(rows, k);
    QuotientIs(FlowSum(rows, k), 100_000_000_000_000, FourDecimals(FlowSum(rows, k)));
    AtLeast(FlowSum(rows, k), 100_000_000_000_000, 0);
  }

  /** A label of the table speaks of the whole amounts, for all the rounding on the way. */
  lemma TableIsSound(rows: seq<Whale>, e: int, i: nat)
    requires e > 0 && i < |BuildMarketFlow(rows, e)| && forall w :: w in rows ==> w.value >= 0
    ensures var row := BuildMarketFlow(rows, e)[i];
      var d, w := FlowSum(rows, (row.hour, CexDeposit)), FlowSum(rows, (row.hour, CexWithdrawal));
      (Level(row.pressure) > 0 ==> d > w) && (Level(row.pressure) < 0 ==> d < w)
  {
    FlowRowAt(rows, e, i);
    var h := BuildMarketFlow(rows, e)[i].hour;
    RoundedPressure(FlowSum(rows, (h, CexDeposit)), FlowSum(rows, (h, CexWithdrawal)), e) by {
      FlowSumPositive(rows, (h, CexDeposit));
      FlowSumPositive(rows, (h, CexWithdrawal));
    }
  }

  lemma FlowSumPositive(rows: seq<Whale>, k: (int, Flow))
    requires forall w :: w in rows ==> w.value >= 0
    ensures FlowSum(rows, k) >= 0
  {
    GroupKeeps(rows, HourFlow, k);
    SumNonNegative(Group(rows, HourFlow, k), Value);
  }

  lemma RoundedPressure(d: int, w: int, e: int)
    requires d >= 0 && w >= 0 && e > 0
    ensures var level := Level(PressureOf(FourDecimals(d), FourDecimals(w), e));
      (level > 0 ==> d > w) && (level < 0 ==> d < w)
  {
    AtLeast(d, 100_000_000_000_000, 0);
    AtLeast(w, 100_000_000_000_000, 0);
    PressureIsSound(FourDecimals(d), FourDecimals(w), e);
    if d <= w { HalfUpOrdered(d, w, 100_000_000_000_000); }
    if w <= d { HalfUpOrdered(w, d, 100_000_000_000_000); }
  }
}
