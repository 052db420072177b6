/** The columns top_whales_daily computes from a wallet's totals (src/gold/transform/top_whales_daily.py). */
module WalletColumns {
  import opened Receipts
  import opened Relational
  import opened Rounding
  import opened Sums
  import opened TopWhales
  import opened WhaleTxns
  import opened Windows
  import opened Wrappers

  /** A millionth of an ETH, the last digit the columns keep. */
  const MICRO := 1_000_000_000_000

  function NetFlowEth(w: Wallet): int { HalfUp(NetFlow(w), MICRO) }
  function TotalActivityEth(w: Wallet): int { HalfUp(Activity(w), MICRO) }

  datatype Position = Accumulator | Dumper | Neutral
  datatype Tier = Humpback | BigWhale | Shark | Crab

  function PositionOf(w: Wallet): Position {
    if NetFlowEth(w) > 0 then Accumulator else if NetFlowEth(w) < 0 then Dumper else Neutral
  }

  function TierOf(w: Wallet): Tier {
    if TotalActivityEth(w) >= 1000_000_000 then Humpback
    else if TotalActivityEth(w) >= 500_000_000 then BigWhale
    else if TotalActivityEth(w) >= 100_000_000 then Shark
    else Crab
  }

  /** A wallet leans to a side exactly when it does so by half a millionth of an ETH. */
  lemma PositionIff(w: Wallet)
    ensures PositionOf(w) == Accumulator <==> 2 * (w.recv - w.sent) >= MICRO
    ensures PositionOf(w) == Dumper <==> 2 * (w.sent - w.recv) >= MICRO
  {
    HalfUpIsOdd(NetFlow(w), MICRO);
    if NetFlow(w) >= 0 { AtLeast(NetFlow(w), MICRO, 1); } else { AtLeast(-NetFlow(w), MICRO, 1); }
  }

  lemma {:induction false} RoundedNear(wallets: seq<Wallet>)
    ensures -(|wallets| * MICRO) <= 2 * (Sum(wallets, NetFlowEth) * MICRO - Sum(wallets, NetFlow)) <= |wallets| * MICRO
  {
    if wallets != [] {
      var n := |wallets| - 1;
      RoundedNear(wallets[..n]);
      HalfUpIsNear(NetFlow(wallets[n]), MICRO);
    }
  }

  /** The rounded net flows of n wallets add up to at most n/2 millionths of an ETH, either way. */
  lemma RoundedNetsNearlyCancel(rows: seq<Whale>)
    ensures -|Wallets(rows)| <= 2 * Sum(Wallets(rows), NetFlowEth) <= |Wallets(rows)|
  {
    WalletsConserve(rows);
    RoundedNear(Wallets(rows));
  }

  // ---- with six decimals the rounding changes nothing ------------------------------------------------------------

  ghost predicate WholeMicros(rows: seq<Whale>) { forall w :: w in rows ==> w.value % MICRO == 0 }

  lemma {:induction false} MultiplesAdd(rows: seq<Whale>)
    requires WholeMicros(rows)
    ensures Sum(rows, Value) % MICRO == 0
  {
    if rows != [] { MultiplesAdd(rows[..|rows| - 1]); }
  }

  lemma GroupsWhole(rows: seq<Whale>, key: Whale -> Option<string>, k: Option<string>)
    requires WholeMicros(rows)
    ensures Sum(Group(rows, key, k), Value) % MICRO == 0
  {
    GroupKeeps(rows, key, k);
    MultiplesAdd(Group(rows, key, k));
  }

  lemma RowsWhole(rows: seq<Whale>, a: Option<string>)
    requires WholeMicros(rows)
    ensures SenderRow(rows, a).sent % MICRO == 0 && SenderRow(rows, a).recv % MICRO == 0
    ensures ReceiverRow(rows, a).sent % MICRO == 0 && ReceiverRow(rows, a).recv % MICRO == 0
  {
    GroupsWhole(rows, From, a);
    GroupsWhole(rows, To, a);
  }

  lemma RowWhole(rows: seq<Whale>, i: nat)
    requires WholeMicros(rows) && i < |Addresses(rows)|
    ensures NetFlow(RowAt(rows, i)) == NetFlowEth(RowAt(rows, i)) * MICRO
  {
    var n := |Keys(rows, From)|;
    RowsWhole(rows, if i < n then Keys(rows, From)[i] else OnlyReceivers(rows)[i - n]);
    RoundingKeeps(RowAt(rows, i));
  }

  lemma WalletWhole(rows: seq<Whale>, i: nat)
    requires WholeMicros(rows) && i < |Wallets(rows)|
    ensures NetFlow(Wallets(rows)[i]) == NetFlowEth(Wallets(rows)[i]) * MICRO
  {
    WalletAt(rows, i);
    RowWhole(rows, i);
  }

  lemma RoundingKeeps(w: Wallet)
    requires w.sent % MICRO == 0 && w.recv % MICRO == 0
    ensures NetFlow(w) == NetFlowEth(w) * MICRO
  {
    HalfUpFixesMultiples(w.recv / MICRO - w.sent / MICRO, MICRO);
  }

  lemma {:induction false} SumScaled(wallets: seq<Wallet>)
    requires forall i :: 0 <= i < |wallets| ==> NetFlow(wallets[i]) == NetFlowEth(wallets[i]) * MICRO
    ensures Sum(wallets, NetFlow) == Sum(wallets, NetFlowEth) * MICRO
  {
    if wallets != [] {
      var n := |wallets| - 1;
      assert forall i :: 0 <= i < n ==> wallets[..n][i] == wallets[i];
      SumScaled(wallets[..n]);
    }
  }

  /** Values with six decimals, as silver's division leaves them: the rounded net flows cancel exactly. */
  lemma NetsCancelExactly(rows: seq<Whale>)
    requires WholeMicros(rows)
    ensures Sum(Wallets(rows), NetFlowEth) == 0
  {
    forall i | 0 <= i < |Wallets(rows)|
      ensures NetFlow(Wallets(rows)[i]) == NetFlowEth(Wallets(rows)[i]) * MICRO
    {
      WalletWhole(rows, i);
    }
    SumScaled(Wallets(rows));
    WalletsConserve(rows);
  }

  lemma SixDecimalsLeaveMicros(txns: seq<Txn>, receipts: seq<Receipt>, labels: seq<Label>, entity: string -> string,
                               threshold: int)
    ensures WholeMicros(BuildWhales(txns, receipts, labels, SixDecimals, entity, threshold))
  {
    var enriched := BuildTxnEnriched(txns, receipts, SixDecimals);
    var kept := WhalesOf(enriched, threshold);
    WhereKeeps(enriched, e => IsWhale(e, threshold));
    EnrichedWhole(txns, receipts);
    ValuesKept(kept, labels, entity);
  }

  lemma EnrichedWhole(txns: seq<Txn>, receipts: seq<Receipt>)
    ensures forall e :: e in BuildTxnEnriched(txns, receipts, SixDecimals) && e.valueEth.Some? ==> e.valueEth.value % MICRO == 0
  {
    var enriched, joined := BuildTxnEnriched(txns, receipts, SixDecimals), LeftJoin(txns, receipts, SameHash);
    forall e | e in enriched && e.valueEth.Some? ensures e.valueEth.value % MICRO == 0 {
      var i :| 0 <= i < |enriched| && enriched[i] == e;
      assert e == EnrichedOf(joined[i].0, joined[i].1, SixDecimals);
    }
  }

  lemma ValuesKept(kept: seq<Enriched>, labels: seq<Label>, entity: string -> string)
    requires forall e :: e in kept ==> e.valueEth.Some? && e.valueEth.value % MICRO == 0
    ensures WholeMicros(JoinLabels(kept, labels, entity))
  {
    var once := LeftJoin(kept, labels, LabelsSender);
    var twice := LeftJoin(once, labels, LabelsReceiver);
    JoinFrom(kept, labels, LabelsSender);
    JoinFrom(once, labels, LabelsReceiver);
    var rows := JoinLabels(kept, labels, entity);
    forall i | 0 <= i < |rows| ensures rows[i].value % MICRO == 0 {
      assert twice[i] in twice;
      assert twice[i].0 in once;
      assert twice[i].0.0 in kept;
    }
  }

  // ---- tiers and ranks -------------------------------------------------------------------------------------------

  lemma {:induction false} GroupAtLeast(rows: seq<Whale>, key: Whale -> Option<string>, k: Option<string>, least: nat)
    requires forall w :: w in rows ==> w.value >= least
    ensures Sum(Group(rows, key, k), Value) >= if Group(rows, key, k) == [] then 0 else least
  {
    if rows != [] {
      var n := |rows| - 1;
      GroupAtLeast(rows[..n], key, k, least);
      GroupGrows(rows, key, k, Value);
      assert rows[n] in rows;
    }
  }

  lemma SenderActive(rows: seq<Whale>, a: Option<string>)
    requires a in Keys(rows, From) && forall w :: w in rows ==> w.value >= 100 * WEI_PER_ETH
    ensures Activity(SenderRow(rows, a)) >= 100 * WEI_PER_ETH
  {
    GroupAtLeast(rows, From, a, 100 * WEI_PER_ETH);
    GroupAtLeast(rows, To, a, 100 * WEI_PER_ETH);
    GroupEmptyIff(rows, From, a);
  }

  lemma ReceiverActive(rows: seq<Whale>, a: Option<string>)
    requires a in Keys(rows, To) && forall w :: w in rows ==> w.value >= 100 * WEI_PER_ETH
    ensures Activity(ReceiverRow(rows, a)) >= 100 * WEI_PER_ETH
  {
    GroupAtLeast(rows, To, a, 100 * WEI_PER_ETH);
    GroupEmptyIff(rows, To, a);
  }

  lemma ActiveIsNoCrab(w: Wallet)
    requires Activity(w) >= 100 * WEI_PER_ETH
    ensures TierOf(w) != Crab
  {
    AtLeast(Activity(w), MICRO, 100_000_000);
  }

  lemma RowActive(rows: seq<Whale>, i: nat)
    requires i < |Addresses(rows)| && forall w :: w in rows ==> w.value >= 100 * WEI_PER_ETH
    ensures TierOf(RowAt(rows, i)) != Crab
  {
    var n := |Keys(rows, From)|;
    if i < n {
      SenderActive(rows, Keys(rows, From)[i]);
    } else {
      OthersOnlyReceive(rows, i - n);
      ReceiverActive(rows, OnlyReceivers(rows)[i - n]);
    }
    ActiveIsNoCrab(RowAt(rows, i));
  }

  /** Every wallet of the summary took part in a whale transaction, so none is a Crab. */
  lemma NoCrabs(rows: seq<Whale>, i: nat)
    requires i < |Wallets(rows)| && forall w :: w in rows ==> w.value >= 100 * WEI_PER_ETH
    ensures TierOf(Wallets(rows)[i]) != Crab
  {
    WalletAt(rows, i);
    RowActive(rows, i);
  }

  /** A whole number of millionths is tiered by its exact amount. */
  lemma WholeTier(w: Wallet)
    requires Activity(w) == TotalActivityEth(w) * MICRO
    ensures TierOf(w) == Humpback <==> Activity(w) >= 1000 * WEI_PER_ETH
    ensures TierOf(w) == BigWhale <==> 500 * WEI_PER_ETH <= Activity(w) < 1000 * WEI_PER_ETH
    ensures TierOf(w) == Shark <==> 100 * WEI_PER_ETH <= Activity(w) < 500 * WEI_PER_ETH
  {
  }

  /** With six decimals the tier is that of the exact activity. */
  lemma TierIsExact(rows: seq<Whale>, w: Wallet)
    requires WholeMicros(rows) && w in Wallets(rows)
    ensures TierOf(w) == Humpback <==> Activity(w) >= 1000 * WEI_PER_ETH
    ensures TierOf(w) == BigWhale <==> 500 * WEI_PER_ETH <= Activity(w) < 1000 * WEI_PER_ETH
    ensures TierOf(w) == Shark <==> 100 * WEI_PER_ETH <= Activity(w) < 500 * WEI_PER_ETH
  {
    WalletActivityWhole(rows, w);
    WholeTier(w);
  }

  lemma WalletActivityWhole(rows: seq<Whale>, w: Wallet)
    requires WholeMicros(rows) && w in Wallets(rows)
    ensures Activity(w) == TotalActivityEth(w) * MICRO
  {
    var i :| 0 <= i < |Wallets(rows)| && Wallets(rows)[i] == w;
    WalletAt(rows, i);
    RowActivityWhole(rows, i);
  }

  lemma RowActivityWhole(rows: seq<Whale>, i: nat)
    requires WholeMicros(rows) && i < |Addresses(rows)|
    ensures Activity(RowAt(rows, i)) == TotalActivityEth(RowAt(rows, i)) * MICRO
  {
    var n := |Keys(rows, From)|;
    RowsWhole(rows, if i < n then Keys(rows, From)[i] else OnlyReceivers(rows)[i - n]);
    ActivityKeeps(RowAt(rows, i));
  }

  lemma ActivityKeeps(w: Wallet)
    requires w.sent % MICRO == 0 && w.recv % MICRO == 0
    ensures Activity(w) == TotalActivityEth(w) * MICRO
  {
    HalfUpFixesMultiples(w.sent / MICRO + w.recv / MICRO, MICRO);
  }

  /** rank(): one more than the number of rows that come strictly before. */
  function RankDescending(wallets: seq<Wallet>, i: nat): nat
    requires i < |wallets|
  {
    1 + |Where(wallets, (w: Wallet) => NetFlowEth(w) > NetFlowEth(wallets[i]))|
  }

  function RankAscending(wallets: seq<Wallet>, i: nat): nat
    requires i < |wallets|
  {
    1 + |Where(wallets, (w: Wallet) => NetFlowEth(w) < NetFlowEth(wallets[i]))|
  }

  /** The two rankings mirror each other: with t wallets tied (itself among them), the ranks of a wallet add up to n + 2 - t. */
  lemma RanksMirror(wallets: seq<Wallet>, i: nat)
    requires i < |wallets|
    ensures RankDescending(wallets, i) + RankAscending(wallets, i)
         == |wallets| + 2 - |Where(wallets, (w: Wallet) => NetFlowEth(w) == NetFlowEth(wallets[i]))|
  {
    ThreeWays(wallets, NetFlowEth(wallets[i]));
  }

  /** rank_accumulator is a wallet's place among the day's by falling net flow, rank_dumper by rising, ties together. */
  lemma RanksArePlaces(wallets: seq<Wallet>, falling: seq<Wallet>, rising: seq<Wallet>, i: nat)
    requires i < |wallets| && multiset(falling) == multiset(wallets) == multiset(rising)
    requires forall j, k :: 0 <= j < k < |falling| ==> NetFlowEth(falling[j]) >= NetFlowEth(falling[k])
    requires forall j, k :: 0 <= j < k < |rising| ==> NetFlowEth(rising[j]) <= NetFlowEth(rising[k])
    ensures var r := RankDescending(wallets, i);
      1 <= r <= |falling| && NetFlowEth(falling[r - 1]) == NetFlowEth(wallets[i]) &&
      forall k :: 0 <= k < r - 1 ==> NetFlowEth(falling[k]) > NetFlowEth(wallets[i])
    ensures var r := RankAscending(wallets, i);
      1 <= r <= |rising| && NetFlowEth(rising[r - 1]) == NetFlowEth(wallets[i]) &&
      forall k :: 0 <= k < r - 1 ==> NetFlowEth(rising[k]) < NetFlowEth(wallets[i])
  {
    RankIsPlace(wallets, falling, NetFlowEth, wallets[i], (w: Wallet) => NetFlowEth(w) > NetFlowEth(wallets[i]));
    RankIsPlace(wallets, rising, (w: Wallet) => -NetFlowEth(w), wallets[i], (w: Wallet) => NetFlowEth(w) < NetFlowEth(wallets[i]));
  }

  lemma {:induction false} ThreeWays(wallets: seq<Wallet>, x: int)
    ensures |Where(wallets, (w: Wallet) => NetFlowEth(w) > x)| + |Where(wallets, (w: Wallet) => NetFlowEth(w) < x)|
          + |Where(wallets, (w: Wallet) => NetFlowEth(w) == x)| == |wallets|
  {
    if wallets != [] { ThreeWays(wallets[..|wallets| - 1], x); }
  }

  // ---- the representative entity ---------------------------------------------------------------------------------

  datatype Entity = Entity(name: string, category: Category)

  /** What the day's transactions call an address, on either side. */
  function EntitiesOf(rows: seq<Whale>, a: string): seq<Entity> {
    Select(SentBy(rows, Some(a)), (w: Whale) => Entity(w.fromEntity, w.fromCategory)) +
    Select(ReceivedBy(rows, Some(a)), (w: Whale) => Entity(w.toEntity, w.toCategory))
  }

  predicate Known(e: Entity) { e.name != "Unknown" }

  /** First by the order of the window: known names before unknown, then the more frequent; ties are open. */
  ghost predicate Chosen(entities: seq<Entity>, e: Entity) {
    && e in entities
    && (forall x :: x in entities && Known(x) ==> Known(e))
    && (forall x :: x in entities && Known(x) == Known(e) ==> multiset(entities)[x] <= multiset(entities)[e])
  }

  function LabelEntity(a: Option<string>, labels: seq<Label>, entity: string -> string): Entity {
    Entity(entity(NameOf(LabelOf(a, labels))), CategoryOf(LabelOf(a, labels)))
  }

  lemma RowsCarryLabels(kept: seq<Enriched>, all: seq<Label>, labels: seq<Label>, entity: string -> string)
    requires Deduplicated(all, labels)
    ensures forall w :: w in JoinLabels(kept, labels, entity) ==>
      && Entity(w.fromEntity, w.fromCategory) == LabelEntity(w.from, labels, entity)
      && Entity(w.toEntity, w.toCategory) == LabelEntity(w.to, labels, entity)
  {
    LabelJoinsKeepRows(kept, all, labels, entity);
  }

  /** Since an address has one label, there is nothing to choose: the order of ties cannot show. */
  lemma EntityIsItsLabel(kept: seq<Enriched>, all: seq<Label>, labels: seq<Label>, entity: string -> string,
                         a: string, e: Entity)
    requires Deduplicated(all, labels)
    requires Chosen(EntitiesOf(JoinLabels(kept, labels, entity), a), e)
    ensures e == LabelEntity(Some(a), labels, entity)
  {
    var rows := JoinLabels(kept, labels, entity);
    RowsCarryLabels(kept, all, labels, entity);
    OneEntity(rows, a, e, LabelEntity(Some(a), labels, entity));
  }

  lemma OneEntity(rows: seq<Whale>, a: string, e: Entity, only: Entity)
    requires e in EntitiesOf(rows, a)
    requires forall w :: w in rows && w.from == Some(a) ==> Entity(w.fromEntity, w.fromCategory) == only
    requires forall w :: w in rows && w.to == Some(a) ==> Entity(w.toEntity, w.toCategory) == only
    ensures e == only
  {
    GroupKeeps(rows, From, Some(a));
    GroupKeeps(rows, To, Some(a));
    var sent, received := SentBy(rows, Some(a)), ReceivedBy(rows, Some(a));
    var k :| 0 <= k < |EntitiesOf(rows, a)| && EntitiesOf(rows, a)[k] == e;
    if k < |sent| {
      assert sent[k] in sent;
    } else {
      assert received[k - |sent|] in received;
    }
  }

  // ---- the table ------------------------------------------------------------------------------------------------------

  datatype Named = Named(address: string, entity: Entity)

  /** entity_map: for each address the day names, one of the entities the window may put first. */
  ghost predicate IsEntityMap(rows: seq<Whale>, names: seq<Named>) {
    && (forall i, j :: 0 <= i < j < |names| ==> names[i].address != names[j].address)
    && (forall n :: n in names ==> Chosen(EntitiesOf(rows, n.address), n.entity))
    && (forall a :: EntitiesOf(rows, a) != [] ==> exists i :: 0 <= i < |names| && names[i].address == a)
  }

  predicate OnAddress(w: Wallet, n: Named) { w.address == Some(n.address) }

  /** The last join of the transform. */
  function TopTable(rows: seq<Whale>, names: seq<Named>): seq<(Wallet, Option<Named>)> {
    LeftJoin(Wallets(rows), names, OnAddress)
  }

  /** It keeps the wallets one for one and in order, each beside at most one name. */
  lemma TopTableKeepsRows(rows: seq<Whale>, names: seq<Named>)
    requires IsEntityMap(rows, names)
    ensures TopTable(rows, names) == Select(Wallets(rows), w => (w, Match(w, names, OnAddress)))
  {
    forall w | w in Wallets(rows) ensures |Partners(w, names, OnAddress)| <= 1 { PartnerUnique(w, names, OnAddress); }
    LeftJoinKeepsRows(Wallets(rows), names, OnAddress);
  }

  lemma NamedWhenTraded(rows: seq<Whale>, a: string)
    requires exists w :: w in rows && (w.from == Some(a) || w.to == Some(a))
    ensures EntitiesOf(rows, a) != []
  {
    GroupKeeps(rows, From, Some(a));
    GroupKeeps(rows, To, Some(a));
    var w :| w in rows && (w.from == Some(a) || w.to == Some(a));
    assert w in SentBy(rows, Some(a)) || w in ReceivedBy(rows, Some(a));
  }

  lemma NameOfWallet(rows: seq<Whale>, names: seq<Named>, w: Wallet)
    requires IsEntityMap(rows, names) && w.address.Some?
    requires exists x :: x in rows && (x.from == w.address || x.to == w.address)
    ensures var m := Match(w, names, OnAddress);
      m.Some? && m.value.address == w.address.value && Chosen(EntitiesOf(rows, w.address.value), m.value.entity)
  {
    var a := w.address.value;
    assert exists x :: x in rows && (x.from == Some(a) || x.to == Some(a));
    NamedWhenTraded(rows, a);
    PartnerUnique(w, names, OnAddress);
    var i :| 0 <= i < |names| && names[i].address == a;
    assert OnAddress(w, names[i]);
  }

  /**
   top_whales_daily: one row for each wallet, in which an address has the entity of its own label and the row without an
   address has none.
   */
  lemma TopTableMeaning(kept: seq<Enriched>, all: seq<Label>, labels: seq<Label>, entity: string -> string,
                        names: seq<Named>, i: nat)
    requires var rows := JoinLabels(kept, labels, entity);
      Deduplicated(all, labels) && IsEntityMap(rows, names) && i < |Wallets(rows)|
    ensures var rows := JoinLabels(kept, labels, entity); var w := Wallets(rows)[i];
      && |TopTable(rows, names)| == |Wallets(rows)|
      && TopTable(rows, names)[i] ==
         (w, if w.address.None? then None else Some(Named(w.address.value, LabelEntity(w.address, labels, entity))))
  {
    var rows := JoinLabels(kept, labels, entity);
    var w := Wallets(rows)[i];
    TopTableKeepsRows(rows, names);
    if w.address.None? {
      PartnerUnique(w, names, OnAddress);
    } else {
      OneRowPerAddress(rows, w.address.value);
      NameOfWallet(rows, names, w);
      EntityIsItsLabel(kept, all, labels, entity, w.address.value, Match(w, names, OnAddress).value.entity);
    }
  }
}
