/**
 The silver layer: transactions joined with their receipts (src/silver/transform/txn_enriched.py), the whales
 among them (src/silver/transform/whale_txns.py), and the labels of both sides (src/silver/known_labels.py).
 Amounts in ETH are integers, in units of the 18th decimal.
 */
module WhaleTxns {
  import opened Receipts
  import opened Relational
  import opened Rounding
  import opened Wrappers

  datatype Receipt = Receipt(hash: string, status: Option<int>)
  datatype Enriched = Enriched(tx: Txn, valueEth: Option<int>, isSuccess: Option<bool>)

  function EnrichedOf(tx: Txn, receipt: Option<Receipt>, round: int -> int): Enriched {
    Enriched(tx,
             if tx.value.Some? then Some(round(tx.value.value)) else None,
             if receipt.Some? && receipt.value.status.Some? then Some(receipt.value.status.value == 1) else None)
  }

  predicate SameHash(t: Txn, r: Receipt) { t.hash == r.hash }

  /** build_txn_enriched; `round` takes wei to ETH at the precision of the division. */
  function BuildTxnEnriched(txns: seq<Txn>, receipts: seq<Receipt>, round: int -> int): seq<Enriched> {
    Select(LeftJoin(txns, receipts, SameHash),
           (p: (Txn, Option<Receipt>)) => EnrichedOf(p.0, p.1, round))
  }

  predicate IsWhale(e: Enriched, threshold: int) {
    e.valueEth.Some? && e.valueEth.value >= threshold * WEI_PER_ETH && e.isSuccess == Some(true)
  }

  function WhalesOf(enriched: seq<Enriched>, threshold: int): seq<Enriched> {
    Where(enriched, e => IsWhale(e, threshold))
  }

  // ---- pruning loses no whale ------------------------------------------------------------------------------------

  /** A rounding of wei to ETH that keeps the order and leaves `whole` ETH as it is. */
  ghost predicate Rounds(round: int -> int, whole: int) {
    (forall a, b :: a <= b ==> round(a) <= round(b)) && round(whole * WEI_PER_ETH) == whole * WEI_PER_ETH
  }

  /** Exactly one receipt for each of the hashes, reporting the status `chain` knows. */
  ghost predicate OneReceiptEach(receipts: seq<Receipt>, hashes: seq<string>, chain: string -> Option<int>) {
    && |receipts| == |hashes|
    && (forall i, j :: 0 <= i < j < |receipts| ==> receipts[i].hash != receipts[j].hash)
    && (forall i :: 0 <= i < |receipts| ==> receipts[i].hash in hashes && receipts[i].status == chain(receipts[i].hash))
    && (forall h :: h in hashes ==> exists i :: 0 <= i < |receipts| && receipts[i].hash == h)
  }

  /** The receipt that extraction and export leave for a transaction. */
  function Fetched(tx: Txn, chain: string -> Option<int>, minEth: int): Option<Receipt> {
    if Worth(tx) >= minEth * WEI_PER_ETH then Some(Receipt(tx.hash, chain(tx.hash))) else None
  }

  /** The receipt found for a transaction: its own if its hash was extracted, otherwise none. */
  lemma ReceiptFound(txns: seq<Txn>, receipts: seq<Receipt>, chain: string -> Option<int>, minEth: int, tx: Txn)
    requires UniqueHashes(txns) && tx in txns && OneReceiptEach(receipts, WhaleHashes(txns, minEth), chain)
    ensures |Partners(tx, receipts, SameHash)| <= 1
    ensures Match(tx, receipts, SameHash) == Fetched(tx, chain, minEth)
  {
    PartnerUnique(tx, receipts, SameHash);
    ExtractedIff(txns, minEth, tx);
    if Worth(tx) >= minEth * WEI_PER_ETH {
      var i :| 0 <= i < |receipts| && receipts[i].hash == tx.hash;
      assert SameHash(tx, receipts[i]);
    } else {
      assert forall i :: 0 <= i < |receipts| ==> receipts[i].hash != tx.hash;
    }
  }

  lemma MatchedReceipts(txns: seq<Txn>, receipts: seq<Receipt>, chain: string -> Option<int>, minEth: int)
    requires UniqueHashes(txns) && OneReceiptEach(receipts, WhaleHashes(txns, minEth), chain)
    ensures LeftJoin(txns, receipts, SameHash) == Select(txns, t => (t, Match(t, receipts, SameHash)))
    ensures forall t :: t in txns ==> Match(t, receipts, SameHash) == Fetched(t, chain, minEth)
  {
    forall t | t in txns
      ensures |Partners(t, receipts, SameHash)| <= 1
      ensures Match(t, receipts, SameHash) == Fetched(t, chain, minEth)
    {
      ReceiptFound(txns, receipts, chain, minEth, t);
    }
    LeftJoinKeepsRows(txns, receipts, SameHash);
  }

  predicate Passes(t: Txn, chain: string -> Option<int>, round: int -> int, minEth: int, threshold: int) {
    && t.value.Some?
    && t.value.value >= minEth * WEI_PER_ETH
    && round(t.value.value) >= threshold * WEI_PER_ETH
    && chain(t.hash) == Some(1)
  }

  /** What the two stages let through, for any pruning limit, filter threshold and rounding. */
  lemma WhalesAre(txns: seq<Txn>, receipts: seq<Receipt>, chain: string -> Option<int>, round: int -> int,
                  minEth: int, threshold: int)
    requires UniqueHashes(txns) && OneReceiptEach(receipts, WhaleHashes(txns, minEth), chain)
    ensures Select(WhalesOf(BuildTxnEnriched(txns, receipts, round), threshold), (e: Enriched) => e.tx)
         == Where(txns, t => Passes(t, chain, round, minEth, threshold))
  {
    MatchedReceipts(txns, receipts, chain, minEth);
    var row := (t: Txn) => EnrichedOf(t, Match(t, receipts, SameHash), round);
    var enriched := BuildTxnEnriched(txns, receipts, round);
    assert enriched == Select(txns, row);
    WhereSelect(txns, row, e => IsWhale(e, threshold), t => Passes(t, chain, round, minEth, threshold));
    var kept := Where(txns, t => Passes(t, chain, round, minEth, threshold));
    assert Select(Select(kept, row), (e: Enriched) => e.tx) == kept;
  }

  predicate GenuineWhale(t: Txn, chain: string -> Option<int>, threshold: int) {
    t.value.Some? && t.value.value >= threshold * WEI_PER_ETH && chain(t.hash) == Some(1)
  }

  /**
   With the same limit for extraction and filter, whale_txns holds the successful transactions of at least that
   many wei, once each and in order, whatever the division rounds.
   */
  lemma PruningLosesNoWhale(txns: seq<Txn>, receipts: seq<Receipt>, chain: string -> Option<int>,
                            round: int -> int, limit: int)
    requires UniqueHashes(txns) && OneReceiptEach(receipts, WhaleHashes(txns, limit), chain) && Rounds(round, limit)
    ensures Select(WhalesOf(BuildTxnEnriched(txns, receipts, round), limit), (e: Enriched) => e.tx)
         == Where(txns, t => GenuineWhale(t, chain, limit))
  {
    WhalesAre(txns, receipts, chain, round, limit, limit);
    forall t: Txn ensures Passes(t, chain, round, limit, limit) == GenuineWhale(t, chain, limit) {
      if t.value.Some? && t.value.value >= limit * WEI_PER_ETH {
        assert round(limit * WEI_PER_ETH) <= round(t.value.value);
      }
    }
    SameFilter(txns, t => Passes(t, chain, round, limit, limit), t => GenuineWhale(t, chain, limit));
  }

  lemma {:induction false} SameFilter<T>(rows: seq<T>, p: T -> bool, q: T -> bool)
    requires forall x :: x in rows ==> p(x) == q(x)
    ensures Where(rows, p) == Where(rows, q)
  {
    if rows != [] { SameFilter(rows[..|rows| - 1], p, q); }
  }

  lemma JustOne<T>(x: T, p: T -> bool)
    ensures Where([x], p) == if p(x) then [x] else []
  {
    assert [x][..0] == [];
  }

  /** The division's six decimals, rounded half up. */
  function SixDecimals(wei: int): int { HalfUp(wei, 1_000_000_000_000) * 1_000_000_000_000 }

  lemma SixDecimalsRounds(whole: int)
    ensures Rounds(SixDecimals, whole)
  {
    forall a, b | a <= b ensures SixDecimals(a) <= SixDecimals(b) {
      HalfUpOrdered(a, b, 1_000_000_000_000);
    }
    HalfUpFixesMultiples(whole * 1_000_000, 1_000_000_000_000);
  }

  /** The six decimals reach a whole number of ETH from half a millionth below it. */
  lemma SixDecimalsReach(wei: int, whole: int)
    requires whole > 0
    ensures SixDecimals(wei) >= whole * WEI_PER_ETH <==> wei >= whole * WEI_PER_ETH - 500_000_000_000
  {
    if wei >= 0 {
      AtLeast(wei, 1_000_000_000_000, whole * 1_000_000);
    } else {
      HalfUpOrdered(wei, 0, 1_000_000_000_000);
    }
  }

  /**
   It is the pruning that makes the filter exact: given the receipts of all transactions, the filter lets in exactly the
   successful ones of at least half a millionth of an ETH less than its threshold.
   */
  lemma RoundingAloneLetsInMore(tx: Txn, status: Option<int>, threshold: int)
    requires threshold > 0
    ensures IsWhale(EnrichedOf(tx, Some(Receipt(tx.hash, status)), SixDecimals), threshold) <==>
            tx.value.Some? && tx.value.value >= threshold * WEI_PER_ETH - 500_000_000_000 && status == Some(1)
  {
    if tx.value.Some? { SixDecimalsReach(tx.value.value, threshold); }
  }

  /** Asking the filter for less than extraction fetched loses successful transactions. */
  lemma LowerThresholdLosesWhale(minEth: int, threshold: int, round: int -> int, chain: string -> Option<int>, tx: Txn)
    requires threshold < minEth && tx.value == Some(threshold * WEI_PER_ETH)
    ensures chain(tx.hash) == Some(1) ==> GenuineWhale(tx, chain, threshold)
    ensures WhalesOf(BuildTxnEnriched([tx], [], round), threshold) == [] && WhaleHashes([tx], minEth) == []
  {
    assert LeftJoin([tx], [], SameHash) == [(tx, None)];
    JustOne(tx, (t: Txn) => Worth(t) >= minEth * WEI_PER_ETH);
    JustOne(EnrichedOf(tx, None, round), e => IsWhale(e, threshold));
    assert BuildTxnEnriched([tx], [], round) == [EnrichedOf(tx, None, round)];
  }

  // ---- labels -----------------------------------------------------------------------------------------------------

  datatype Category = Unknown | Cex | Dex | Bridge | Other(name: string)
  datatype Label = Label(address: string, name: string, category: Category)

  /** dropDuplicates(["address"]): one of the rows of each address, no saying which. */
  ghost predicate Deduplicated(all: seq<Label>, labels: seq<Label>) {
    && (forall l :: l in labels ==> l in all)
    && (forall i, j :: 0 <= i < j < |labels| ==> labels[i].address != labels[j].address)
    && (forall l :: l in all ==> exists i :: 0 <= i < |labels| && labels[i].address == l.address)
  }

  datatype Flow = CexDeposit | CexWithdrawal | DexTrade | BridgeMove | PrivateMove | OtherFlow

  function FlowOf(from: Category, to: Category): Flow {
    if from.Unknown? && to.Cex? then CexDeposit
    else if from.Cex? && to.Unknown? then CexWithdrawal
    else if from.Dex? || to.Dex? then DexTrade
    else if from.Bridge? || to.Bridge? then BridgeMove
    else if from.Unknown? && to.Unknown? then PrivateMove
    else OtherFlow
  }

  /** A row of whale_txns without the window columns. */
  datatype Whale = Whale(
    hash: string, time: int, hour: int, from: Option<string>, to: Option<string>, value: int,
    fromEntity: string, fromCategory: Category, toEntity: string, toCategory: Category, flow: Flow)

  function Value(w: Whale): int { w.value }

  predicate LabelsSender(e: Enriched, l: Label) { e.tx.from == Some(l.address) }
  predicate LabelsReceiver(p: (Enriched, Option<Label>), l: Label) { p.0.tx.to == Some(l.address) }

  function NameOf(l: Option<Label>): string { if l.Some? then l.value.name else "Unknown" }
  function CategoryOf(l: Option<Label>): Category { if l.Some? then l.value.category else Unknown }

  /** The columns computed after the joins; `entity` is the brand name taken out of a label. */
  function WhaleOf(e: Enriched, from: Option<Label>, to: Option<Label>, entity: string -> string): Whale {
    Whale(e.tx.hash, e.tx.time, (e.tx.time / 3600) % 24, e.tx.from, e.tx.to,
          if e.valueEth.Some? then e.valueEth.value else 0,
          entity(NameOf(from)), CategoryOf(from), entity(NameOf(to)), CategoryOf(to),
          FlowOf(CategoryOf(from), CategoryOf(to)))
  }

  function JoinLabels(whales: seq<Enriched>, labels: seq<Label>, entity: string -> string): seq<Whale> {
    Select(LeftJoin(LeftJoin(whales, labels, LabelsSender), labels, LabelsReceiver),
           (p: ((Enriched, Option<Label>), Option<Label>)) => WhaleOf(p.0.0, p.0.1, p.1, entity))
  }

  /** The labels of an address; NULL has none. */
  function LabelsAt(address: Option<string>, labels: seq<Label>): seq<Label> {
    Where(labels, (l: Label) => address == Some(l.address))
  }

  function LabelOf(address: Option<string>, labels: seq<Label>): Option<Label> {
    var found := LabelsAt(address, labels);
    if found == [] then None else Some(found[0])
  }

  lemma SenderPartners(e: Enriched, labels: seq<Label>)
    ensures Partners(e, labels, LabelsSender) == LabelsAt(e.tx.from, labels)
  {
    var address := e.tx.from;
    PartnersAre(e, labels, LabelsSender, (l: Label) => address == Some(l.address));
  }

  lemma ReceiverPartners(p: (Enriched, Option<Label>), labels: seq<Label>)
    ensures Partners(p, labels, LabelsReceiver) == LabelsAt(p.0.tx.to, labels)
  {
    var address := p.0.tx.to;
    PartnersAre(p, labels, LabelsReceiver, (l: Label) => address == Some(l.address));
  }

  ghost predicate OneLabelEach(labels: seq<Label>) {
    forall i, j :: 0 <= i < j < |labels| ==> labels[i].address != labels[j].address
  }

  lemma SenderJoin(whales: seq<Enriched>, labels: seq<Label>)
    requires OneLabelEach(labels)
    ensures LeftJoin(whales, labels, LabelsSender) == Select(whales, (e: Enriched) => (e, LabelOf(e.tx.from, labels)))
  {
    forall e | e in whales ensures |Partners(e, labels, LabelsSender)| <= 1 {
      PartnerUnique(e, labels, LabelsSender);
    }
    LeftJoinKeepsRows(whales, labels, LabelsSender);
    forall e: Enriched ensures Match(e, labels, LabelsSender) == LabelOf(e.tx.from, labels) {
      SenderPartners(e, labels);
    }
  }

  lemma ReceiverJoin(rows: seq<(Enriched, Option<Label>)>, labels: seq<Label>)
    requires OneLabelEach(labels)
    ensures LeftJoin(rows, labels, LabelsReceiver)
         == Select(rows, (p: (Enriched, Option<Label>)) => (p, LabelOf(p.0.tx.to, labels)))
  {
    forall p | p in rows ensures |Partners(p, labels, LabelsReceiver)| <= 1 {
      PartnerUnique(p, labels, LabelsReceiver);
    }
    LeftJoinKeepsRows(rows, labels, LabelsReceiver);
    forall p: (Enriched, Option<Label>) ensures Match(p, labels, LabelsReceiver) == LabelOf(p.0.tx.to, labels) {
      ReceiverPartners(p, labels);
    }
  }

  /** Whichever duplicates are dropped, the two label joins leave one row for each whale, in order. */
  lemma LabelJoinsKeepRows(whales: seq<Enriched>, all: seq<Label>, labels: seq<Label>, entity: string -> string)
    requires Deduplicated(all, labels)
    ensures JoinLabels(whales, labels, entity)
         == Select(whales, (e: Enriched) => WhaleOf(e, LabelOf(e.tx.from, labels), LabelOf(e.tx.to, labels), entity))
  {
    SenderJoin(whales, labels);
    ReceiverJoin(LeftJoin(whales, labels, LabelsSender), labels);
  }

  lemma {:induction false} JoinCovers(whales: seq<Enriched>, labels: seq<Label>)
    ensures forall p :: p in LeftJoin(whales, labels, LabelsSender) ==> p.0 in whales
    ensures forall e :: e in whales ==> exists p :: p in LeftJoin(whales, labels, LabelsSender) && p.0 == e
  {
    if whales != [] {
      var n := |whales| - 1;
      var last := whales[n];
      JoinCovers(whales[..n], labels);
      var before := LeftJoin(whales[..n], labels, LabelsSender);
      var found := Partners(last, labels, LabelsSender);
      var added := if found == [] then [(last, None)] else Select(found, b => (last, Some(b)));
      assert LeftJoin(whales, labels, LabelsSender) == before + added;
      assert added[0].0 == last && added[0] in before + added;
      forall e | e in whales ensures exists p :: p in before + added && p.0 == e {
        if e != last {
          assert whales == whales[..n] + [last];
          assert e in whales[..n];
          var p :| p in before && p.0 == e;
          assert p in before + added;
        }
      }
    }
  }

  /** The joins keep the number of rows exactly when no side of a whale has two labels. */
  lemma LabelJoinsKeepCountIff(whales: seq<Enriched>, labels: seq<Label>, entity: string -> string)
    ensures |JoinLabels(whales, labels, entity)| == |whales| <==>
      forall e :: e in whales ==> |LabelsAt(e.tx.from, labels)| <= 1 && |LabelsAt(e.tx.to, labels)| <= 1
  {
    var once := LeftJoin(whales, labels, LabelsSender);
    JoinNeverShrinks(whales, labels, LabelsSender);
    JoinNeverShrinks(once, labels, LabelsReceiver);
    JoinKeepsCountIff(whales, labels, LabelsSender);
    JoinKeepsCountIff(once, labels, LabelsReceiver);
    JoinCovers(whales, labels);
    forall e: Enriched ensures Partners(e, labels, LabelsSender) == LabelsAt(e.tx.from, labels) {
      SenderPartners(e, labels);
    }
    forall p: (Enriched, Option<Label>) ensures Partners(p, labels, LabelsReceiver) == LabelsAt(p.0.tx.to, labels) {
      ReceiverPartners(p, labels);
    }
  }

  // ---- end to end -----------------------------------------------------------------------------------------------

  /** build_whale_txns up to its windows, on what the earlier stages leave. */
  function BuildWhales(txns: seq<Txn>, receipts: seq<Receipt>, labels: seq<Label>, round: int -> int,
                       entity: string -> string, threshold: int): seq<Whale> {
    JoinLabels(WhalesOf(BuildTxnEnriched(txns, receipts, round), threshold), labels, entity)
  }

  /** What whale_txns says of a transaction, whatever the labels; the hour is that of the UTC day its time falls in. */
  predicate Carries(w: Whale, t: Txn, round: int -> int) {
    && w.hash == t.hash && w.time == t.time && w.from == t.from && w.to == t.to
    && t.value.Some? && w.value == round(t.value.value)
    && 0 <= w.hour < 24 && (w.time - 3_600 * w.hour) % 86_400 < 3_600
  }

  lemma HourOfDay(time: int)
    ensures var hour := (time / 3_600) % 24; 0 <= hour < 24 && (time - 3_600 * hour) % 86_400 == time % 3_600
  {
    var q := time / 3_600;
    var day, hour := q / 24, q % 24;
    assert time - 3_600 * hour == 86_400 * day + time % 3_600;
  }

  /** From the day's files to whale_txns: each successful whale is there once, in order, and nothing else. */
  lemma WhaleTableIsExact(txns: seq<Txn>, receipts: seq<Receipt>, chain: string -> Option<int>, all: seq<Label>,
                          labels: seq<Label>, round: int -> int, entity: string -> string, limit: int)
    requires UniqueHashes(txns) && OneReceiptEach(receipts, WhaleHashes(txns, limit), chain) && Rounds(round, limit)
    requires Deduplicated(all, labels)
    ensures var whales := BuildWhales(txns, receipts, labels, round, entity, limit);
      var genuine := Where(txns, t => GenuineWhale(t, chain, limit));
      && |whales| == |genuine|
      && (forall i :: 0 <= i < |whales| ==> Carries(whales[i], genuine[i], round))
      && (forall w :: w in whales ==> w.value >= limit * WEI_PER_ETH)
  {
    var enriched := BuildTxnEnriched(txns, receipts, round);
    var kept := WhalesOf(enriched, limit);
    PruningLosesNoWhale(txns, receipts, chain, round, limit);
    LabelJoinsKeepRows(kept, all, labels, entity);
    EnrichedRecords(txns, receipts, round, limit);
    RowsMatch(kept, labels, entity, limit, round);
  }

  lemma EnrichedRecords(txns: seq<Txn>, receipts: seq<Receipt>, round: int -> int, limit: int)
    ensures forall e :: e in WhalesOf(BuildTxnEnriched(txns, receipts, round), limit) ==>
      e.tx.value.Some? && e.valueEth == Some(round(e.tx.value.value)) && e.valueEth.value >= limit * WEI_PER_ETH
  {
    WhereKeeps(BuildTxnEnriched(txns, receipts, round), e => IsWhale(e, limit));
  }

  lemma RowsMatch(kept: seq<Enriched>, labels: seq<Label>, entity: string -> string, limit: int, round: int -> int)
    requires forall e :: e in kept ==>
      e.tx.value.Some? && e.valueEth == Some(round(e.tx.value.value)) && e.valueEth.value >= limit * WEI_PER_ETH
    requires JoinLabels(kept, labels, entity)
          == Select(kept, (e: Enriched) => WhaleOf(e, LabelOf(e.tx.from, labels), LabelOf(e.tx.to, labels), entity))
    ensures var whales, genuine := JoinLabels(kept, labels, entity), Select(kept, (e: Enriched) => e.tx);
      && |whales| == |genuine|
      && (forall i :: 0 <= i < |whales| ==> Carries(whales[i], genuine[i], round))
      && (forall w :: w in whales ==> w.value >= limit * WEI_PER_ETH)
  {
    var whales, genuine := JoinLabels(kept, labels, entity), Select(kept, (e: Enriched) => e.tx);
    forall i | 0 <= i < |whales| ensures Carries(whales[i], genuine[i], round) && whales[i].value >= limit * WEI_PER_ETH {
      assert kept[i] in kept;
      HourOfDay(kept[i].tx.time);
    }
  }

  /**
   The flow of a row is read off the labels of its two addresses: to an exchange from nobody known, or back; else a
   trade where either is a DEX, else a move where either is a bridge, else private where nobody is known.
   */
  lemma FlowsFollowLabels(whales: seq<Enriched>, all: seq<Label>, labels: seq<Label>, entity: string -> string, i: nat)
    requires Deduplicated(all, labels) && i < |whales|
    ensures i < |JoinLabels(whales, labels, entity)|
    ensures FlowFits(JoinLabels(whales, labels, entity)[i].flow,
                     LabelOf(whales[i].tx.from, labels), LabelOf(whales[i].tx.to, labels))
  {
    LabelJoinsKeepRows(whales, all, labels, entity);
    FlowOfFits(LabelOf(whales[i].tx.from, labels), LabelOf(whales[i].tx.to, labels));
  }

  /** The label puts its address in this category; an address without a label is in Unknown. */
  predicate In(l: Option<Label>, c: Category) {
    if l.None? then c == Unknown else l.value.category == c
  }

  predicate FlowFits(flow: Flow, from: Option<Label>, to: Option<Label>) {
    && (flow == CexDeposit <==> In(from, Unknown) && In(to, Cex))
    && (flow == CexWithdrawal <==> In(from, Cex) && In(to, Unknown))
    && (flow == DexTrade <==> In(from, Dex) || In(to, Dex))
    && (flow == BridgeMove <==> (In(from, Bridge) || In(to, Bridge)) && !In(from, Dex) && !In(to, Dex))
    && (flow == PrivateMove <==> In(from, Unknown) && In(to, Unknown))
    && (flow == OtherFlow <==>
         flow != CexDeposit && flow != CexWithdrawal && flow != DexTrade && flow != BridgeMove && flow != PrivateMove)
  }

  lemma FlowOfFits(from: Option<Label>, to: Option<Label>)
    ensures FlowFits(FlowOf(CategoryOf(from), CategoryOf(to)), from, to)
  {
  }

  /** The entity and the category are those of the address's own label, or Unknown when it has none. */
  ghost predicate Tells(address: Option<string>, labels: seq<Label>, entity: string -> string, name: string, category: Category) {
    && (forall l :: l in labels && address == Some(l.address) ==> name == entity(l.name) && category == l.category)
    && ((forall l :: l in labels ==> address != Some(l.address)) ==> name == entity("Unknown") && category == Unknown)
  }

  lemma LabelTells(address: Option<string>, labels: seq<Label>, entity: string -> string)
    requires OneLabelEach(labels)
    ensures Tells(address, labels, entity, entity(NameOf(LabelOf(address, labels))), CategoryOf(LabelOf(address, labels)))
  {
    var found := LabelsAt(address, labels);
    WhereAtMostOne(labels, (l: Label) => address == Some(l.address));
    WhereKeeps(labels, (l: Label) => address == Some(l.address));
    if l :| l in labels && address == Some(l.address) {
      assert l in found && found == [l];
    } else {
      WhereNone(labels, (l: Label) => address == Some(l.address));
    }
  }

  /** Each side's columns speak of that side's address. */
  lemma ColumnsFollowLabels(whales: seq<Enriched>, all: seq<Label>, labels: seq<Label>, entity: string -> string, i: nat)
    requires Deduplicated(all, labels) && i < |whales|
    ensures i < |JoinLabels(whales, labels, entity)|
    ensures var w := JoinLabels(whales, labels, entity)[i];
      && Tells(w.from, labels, entity, w.fromEntity, w.fromCategory)
      && Tells(w.to, labels, entity, w.toEntity, w.toCategory)
  {
    LabelJoinsKeepRows(whales, all, labels, entity);
    LabelTells(whales[i].tx.from, labels, entity);
    LabelTells(whales[i].tx.to, labels, entity);
  }
}
