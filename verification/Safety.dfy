/** What every step of the consumer keeps, and so what holds in every reachable state. */
module Safety {
  import opened Wrappers
  import opened Messages
  import opened Tables
  import opened Protocol
  import opened StepFootprint

  // ---- what it means for a message to be dealt with -----------------------------------------------

  /** Some reading of `b` has its key in the table. */
  ghost predicate TxStored(store: Store, b: TxBody) {
    exists tx :: Reads(b, tx) && KeyOf(tx) in store.txs
  }

  ghost predicate TxAlerted(store: Store, b: TxBody) {
    b.value >= WHALE_THRESHOLD_WEI ==> exists tx :: Reads(b, tx) && tx in store.delivered
  }

  /** `t` is what the consumer may make of `b`: its own time, or its block's when it carries none. */
  ghost predicate ReadsTransfer(log: Log, b: TransferBody, t: Transfer) {
    t == Transfer(b.hash, b.logIndex, t.timestamp, b.token, b.from, b.to, b.value) &&
    (b.stamp.Absent? ==> IsBlockTime(log, b.block, t.timestamp)) &&
    (Stable(b.stamp) ==> t.timestamp == b.stamp.seconds)
  }

  ghost predicate TransferStored(log: Log, store: Store, b: TransferBody) {
    exists t :: ReadsTransfer(log, b, t) && TransferKeyOf(t) in store.transfers
  }

  ghost predicate Settled(log: Log, store: Store, hist: Hist, p: Part, o: nat)
    requires p in log && o < |log[p]|
  {
    match log[p][o]
    case Transaction(b) => !b.stamp.Absent? ==> TxStored(store, b) && TxAlerted(store, b)
    case TokenTransfer(b) =>
      TransferStored(log, store, b) || Origin(p, o) in hist.skipped || Origin(p, o) in hist.dropped
    case _ => true
  }

  ghost predicate SettledBelow(log: Log, store: Store, hist: Hist, r: Offsets)
    requires ValidOffsets(log, r)
  {
    forall p, o: nat :: p in log && o < r[p] ==> Settled(log, store, hist, p, o)
  }

  ghost predicate ValidOffsets(log: Log, r: Offsets) {
    r.Keys == log.Keys && forall p :: p in r ==> r[p] <= |log[p]|
  }

  // ---- the invariant --------------------------------------------------------------------------------

  ghost predicate TxFrom(log: Log, e: Buffered<Tx>) {
    var o := e.origin;
    o.part in log && o.offset < |log[o.part]| && log[o.part][o.offset].Transaction? &&
    Reads(log[o.part][o.offset].tx, e.item)
  }

  ghost predicate TransferFrom(log: Log, e: Buffered<Transfer>) {
    var o := e.origin;
    o.part in log && o.offset < |log[o.part]| && log[o.part][o.offset].TokenTransfer? &&
    ReadsTransfer(log, log[o.part][o.offset].transfer, e.item)
  }

  /** Read but not yet settled: waiting in a batch or in the hands of the enrichment loop. */
  ghost predicate InHand(p: Proc, o: Origin) {
    || (exists i :: 0 <= i < |p.txBatch| && p.txBatch[i].origin == o)
    || (exists i :: 0 <= i < |p.transferBatch| && p.transferBatch[i].origin == o)
    || (p.pc.Enriching? && p.pc.origin == o)
  }

  ghost predicate OffsetsOk(log: Log, s: State) {
    && ValidOffsets(log, s.store.committed)
    && ValidOffsets(log, s.proc.position)
    && forall r :: r in s.store.requested ==> ValidOffsets(log, r)
  }

  ghost predicate PcOk(log: Log, pc: Pc) {
    match pc
    case Caching(n, t) => IsBlockTime(log, n, t)
    case Enriching(o, m, retries) =>
      o.part in log && o.offset < |log[o.part]| && log[o.part][o.offset].TokenTransfer? && retries <= MAX_RETRIES &&
      (var b := log[o.part][o.offset].transfer; b.stamp.Absent? && m == DecodeTransfer(b, 0))
    case _ => true
  }

  ghost predicate SourcesOk(log: Log, s: State) {
    && (forall i :: 0 <= i < |s.proc.txBatch| ==> TxFrom(log, s.proc.txBatch[i]))
    && (forall i :: 0 <= i < |s.proc.transferBatch| ==> TransferFrom(log, s.proc.transferBatch[i]))
    && (forall n :: n in s.store.cache ==> IsBlockTime(log, n, s.store.cache[n]))
    && PcOk(log, s.proc.pc)
  }

  /** Nothing read is forgotten, and nothing below an offset that may be committed is unsettled. */
  ghost predicate CoverageOk(log: Log, s: State)
    requires OffsetsOk(log, s)
  {
    && (forall p, o: nat :: p in log && o < s.proc.position[p] ==>
         Settled(log, s.store, s.hist, p, o) || InHand(s.proc, Origin(p, o)))
    && SettledBelow(log, s.store, s.hist, s.store.committed)
    && (forall r :: r in s.store.requested ==> SettledBelow(log, s.store, s.hist, r))
  }

  ghost predicate AlertsOk(s: State) {
    && (forall tx :: tx in s.store.handed ==> KeyOf(tx) in s.store.txs && tx.value >= WHALE_THRESHOLD_WEI)
    && s.store.delivered <= s.store.handed
    && (forall i :: 0 <= i < |s.proc.queue| ==> s.proc.queue[i] in s.store.handed)
  }

  ghost predicate RowsCommitted(s: State) {
    && (forall i :: 0 <= i < |s.proc.txBatch| ==> KeyOf(s.proc.txBatch[i].item) in s.store.txs)
    && (forall i :: 0 <= i < |s.proc.transferBatch| ==> TransferKeyOf(s.proc.transferBatch[i].item) in s.store.transfers)
  }

  /** Sent, and either still awaiting its callback, arrived, or remembered as failed by _error. */
  ghost predicate Tracked(s: State, w: Tx) {
    w in s.proc.queue || w in s.store.delivered || s.proc.error
  }

  ghost predicate PhaseOk(s: State) {
    var ws := Whales(s.proc.txBatch);
    match s.proc.pc
    case Sending(next, _) => RowsCommitted(s) && next < |ws| && forall i :: 0 <= i < next ==> Tracked(s, ws[i])
    case Draining(_) => RowsCommitted(s) && forall i :: 0 <= i < |ws| ==> Tracked(s, ws[i])
    case Alerted(_) => RowsCommitted(s) && forall i :: 0 <= i < |ws| ==> ws[i] in s.store.delivered
    case Requested(_) => RowsCommitted(s) && forall i :: 0 <= i < |ws| ==> ws[i] in s.store.delivered
    case _ => true
  }

  /** Every stored row is a reading of some message. */
  ghost predicate RowsOk(log: Log, s: State) {
    && (forall k :: k in s.store.txs ==> k == KeyOf(s.store.txs[k]) && TxRowFrom(log, s.store.txs[k]))
    && (forall k :: k in s.store.transfers ==>
         k == TransferKeyOf(s.store.transfers[k]) && TransferRowFrom(log, s.store.transfers[k]))
  }

  ghost predicate TxRowFrom(log: Log, row: Tx) {
    exists o: Origin :: TxFrom(log, Buffered(o, row))
  }

  ghost predicate TransferRowFrom(log: Log, row: Transfer) {
    exists o: Origin :: TransferFrom(log, Buffered(o, row))
  }

  function BufferedCount(p: Proc): nat { |p.txBatch| + |p.transferBatch| }

  ghost predicate SizeOk(s: State) {
    var n := BufferedCount(s.proc);
    match s.proc.pc
    case Head => n <= BATCH_SIZE - 1 + s.hist.failures
    case Caching(_, _) => n <= BATCH_SIZE - 1 + s.hist.failures
    case Enriching(_, _, _) => n <= BATCH_SIZE - 1 + s.hist.failures
    case _ => n <= BATCH_SIZE + s.hist.failures
  }

  ghost predicate Inv(log: Log, s: State) {
    && OffsetsOk(log, s)
    && SourcesOk(log, s)
    && CoverageOk(log, s)
    && AlertsOk(s)
    && PhaseOk(s)
    && RowsOk(log, s)
    && SizeOk(s)
  }

  // ---- preservation ---------------------------------------------------------------------------------

  /** Nothing a message can rest on goes away. */
  ghost predicate Grows(a: State, b: State) {
    && a.store.txs.Keys <= b.store.txs.Keys
    && a.store.transfers.Keys <= b.store.transfers.Keys
    && a.store.delivered <= b.store.delivered
    && a.hist.skipped <= b.hist.skipped
    && a.hist.dropped <= b.hist.dropped
  }

  lemma SettledStays(log: Log, a: State, b: State, p: Part, o: nat)
    requires Grows(a, b) && p in log && o < |log[p]| && Settled(log, a.store, a.hist, p, o)
    ensures Settled(log, b.store, b.hist, p, o)
  {
    match log[p][o]
    case Transaction(body) =>
      if !body.stamp.Absent? {
        var tx :| Reads(body, tx) && KeyOf(tx) in a.store.txs;
        assert KeyOf(tx) in b.store.txs;
      }
    case TokenTransfer(body) =>
      if TransferStored(log, a.store, body) {
        var t :| ReadsTransfer(log, body, t) && TransferKeyOf(t) in a.store.transfers;
        assert TransferKeyOf(t) in b.store.transfers;
      }
    case _ =>
  }

  lemma BelowStays(log: Log, a: State, b: State, r: Offsets)
    requires Grows(a, b) && ValidOffsets(log, r) && SettledBelow(log, a.store, a.hist, r)
    ensures SettledBelow(log, b.store, b.hist, r)
  {
    forall p, o: nat | p in log && o < r[p] ensures Settled(log, b.store, b.hist, p, o) {
      SettledStays(log, a, b, p, o);
    }
  }

  /** Coverage carries over to any later state with the same offsets that still holds what was in hand. */
  lemma CoverageStays(log: Log, a: State, b: State)
    requires OffsetsOk(log, a) && CoverageOk(log, a) && Grows(a, b)
    requires b.proc.position == a.proc.position
    requires b.store.committed == a.store.committed || b.store.committed in a.store.requested
    requires b.store.requested == a.store.requested
    requires forall o: Origin :: InHand(a.proc, o) && o.part in log && o.offset < |log[o.part]| ==>
               InHand(b.proc, o) || Settled(log, b.store, b.hist, o.part, o.offset)
    ensures OffsetsOk(log, b) && CoverageOk(log, b)
  {
    forall p, o: nat | p in log && o < b.proc.position[p]
      ensures Settled(log, b.store, b.hist, p, o) || InHand(b.proc, Origin(p, o))
    {
      if Settled(log, a.store, a.hist, p, o) { SettledStays(log, a, b, p, o); }
      else { assert InHand(a.proc, Origin(p, o)); }
    }
    BelowStays(log, a, b, a.store.committed);
    forall r | r in a.store.requested ensures SettledBelow(log, b.store, b.hist, r) {
      BelowStays(log, a, b, r);
    }
  }

  lemma {:induction false} WhalesMeaning(batch: seq<Buffered<Tx>>)
    ensures forall i :: 0 <= i < |batch| && batch[i].item.value >= WHALE_THRESHOLD_WEI ==> batch[i].item in Whales(batch)
    ensures forall w :: w in Whales(batch) ==>
              w.value >= WHALE_THRESHOLD_WEI && exists i :: 0 <= i < |batch| && batch[i].item == w
  {
    if batch != [] {
      var k := |batch| - 1;
      WhalesMeaning(batch[..k]);
      forall i | 0 <= i < |batch| && batch[i].item.value >= WHALE_THRESHOLD_WEI ensures batch[i].item in Whales(batch) {
        if i < k { assert batch[..k][i] == batch[i]; }
      }
      forall w | w in Whales(batch)
        ensures w.value >= WHALE_THRESHOLD_WEI && exists i :: 0 <= i < |batch| && batch[i].item == w
      {
        if w in Whales(batch[..k]) {
          var i :| 0 <= i < k && batch[..k][i].item == w;
          assert batch[i].item == w;
        } else {
          assert batch[k].item == w;
        }
      }
    }
  }

  /** Once the publish has returned, everything read so far is settled. */
  lemma PublishedMeansSettled(log: Log, s: State)
    requires OffsetsOk(log, s) && CoverageOk(log, s) && SourcesOk(log, s) && PhaseOk(s)
    requires s.proc.pc.Alerted? || s.proc.pc.Requested?
    ensures SettledBelow(log, s.store, s.hist, s.proc.position)
  {
    forall p, o: nat | p in log && o < s.proc.position[p] ensures Settled(log, s.store, s.hist, p, o) {
      if !Settled(log, s.store, s.hist, p, o) {
        InHandSettled(log, s, Origin(p, o));
      }
    }
  }

  lemma InHandSettled(log: Log, s: State, at: Origin)
    requires SourcesOk(log, s) && PhaseOk(s) && (s.proc.pc.Alerted? || s.proc.pc.Requested?)
    requires InHand(s.proc, at) && at.part in log && at.offset < |log[at.part]|
    ensures Settled(log, s.store, s.hist, at.part, at.offset)
  {
    if i :| 0 <= i < |s.proc.txBatch| && s.proc.txBatch[i].origin == at {
      var tx := s.proc.txBatch[i].item;
      WhalesMeaning(s.proc.txBatch);
      assert Reads(log[at.part][at.offset].tx, tx) && KeyOf(tx) in s.store.txs;
      if tx.value >= WHALE_THRESHOLD_WEI {
        var j :| 0 <= j < |Whales(s.proc.txBatch)| && Whales(s.proc.txBatch)[j] == tx;
        assert tx in s.store.delivered;
      }
    } else {
      var i :| 0 <= i < |s.proc.transferBatch| && s.proc.transferBatch[i].origin == at;
      var t := s.proc.transferBatch[i].item;
      assert ReadsTransfer(log, log[at.part][at.offset].transfer, t) && TransferKeyOf(t) in s.store.transfers;
    }
  }

  // The size of the buffer.

  lemma PollSize(log: Log, s: State, part: Part, now: int)
    requires SizeOk(s) && Enabled(log, s, PollMessage(part, now))
    ensures SizeOk(Apply(log, s, PollMessage(part, now)))
  {
  }

  lemma LookupSize(log: Log, s: State, raised: bool)
    requires SizeOk(s) && Enabled(log, s, LookupReply(raised))
    ensures SizeOk(Apply(log, s, LookupReply(raised)))
  {
  }

  lemma CommitSize(log: Log, s: State, outcome: DbOutcome)
    requires SizeOk(s) && Enabled(log, s, DbCommit(outcome))
    ensures SizeOk(Apply(log, s, DbCommit(outcome)))
  {
  }

  lemma PublishSize(log: Log, s: State, step: Step)
    requires SizeOk(s) && Enabled(log, s, step) && (IsPublish(step) || step.RequestOffsets?)
    ensures SizeOk(Apply(log, s, step))
  {
  }

  lemma LocalSize(log: Log, s: State, step: Step)
    requires SizeOk(s) && Enabled(log, s, step) && (IsMove(step) || step.CacheReply? || step.ClearBatches?)
    ensures SizeOk(Apply(log, s, step))
  {
  }

  lemma TestSize(log: Log, s: State, step: Step)
    requires SizeOk(s) && Enabled(log, s, step) && (IsEnvironment(step) || IsTest(step))
    ensures SizeOk(Apply(log, s, step))
  {
  }

  lemma SizeKept(log: Log, s: State, step: Step)
    requires SizeOk(s) && Enabled(log, s, step)
    ensures SizeOk(Apply(log, s, step))
  {
    if step.PollMessage? { PollSize(log, s, step.part, step.now); }
    else if step.LookupReply? { LookupSize(log, s, step.raised); }
    else if step.DbCommit? { CommitSize(log, s, step.outcome); }
    else if IsPublish(step) || step.RequestOffsets? { PublishSize(log, s, step); }
    else if IsMove(step) || step.CacheReply? || step.ClearBatches? { LocalSize(log, s, step); }
    else { TestSize(log, s, step); }
  }

  // Where the buffered and the stored came from.

  lemma SourcesFrame(log: Log, s: State, t: State)
    requires SourcesOk(log, s) && PcOk(log, t.proc.pc)
    requires t.proc.txBatch == s.proc.txBatch || t.proc.txBatch == []
    requires t.proc.transferBatch == s.proc.transferBatch || t.proc.transferBatch == []
    requires forall n :: n in t.store.cache ==> IsBlockTime(log, n, t.store.cache[n])
    ensures SourcesOk(log, t)
  {
  }

  lemma PollSources(log: Log, s: State, part: Part, now: int)
    requires SourcesOk(log, s) && Enabled(log, s, PollMessage(part, now))
    ensures SourcesOk(log, Apply(log, s, PollMessage(part, now)))
  {
    var t := Apply(log, s, PollMessage(part, now));
    var o := s.proc.position[part];
    match log[part][o]
    case BlockHeader(n, time) =>
      assert IsBlockTime(log, n, time);
      SourcesFrame(log, s, t);
    case Transaction(b) =>
      if b.stamp.Absent? { SourcesFrame(log, s, t); }
      else { assert TxFrom(log, Buffered(Origin(part, o), DecodeTx(b, now).value)); }
    case TokenTransfer(b) =>
      if b.stamp.Absent? { SourcesFrame(log, s, t); }
      else {
        var m := DecodeTransfer(b, now);
        assert TransferFrom(log, Buffered(Origin(part, o), Stamped(m, m.timestamp.value)));
      }
    case _ => SourcesFrame(log, s, t);
  }

  lemma LookupSources(log: Log, s: State, raised: bool)
    requires SourcesOk(log, s) && Enabled(log, s, LookupReply(raised))
    ensures SourcesOk(log, Apply(log, s, LookupReply(raised)))
  {
    var t := Apply(log, s, LookupReply(raised));
    var Enriching(o, m, _) := s.proc.pc;
    if !raised && m.block in s.store.cache {
      assert TransferFrom(log, Buffered(o, Stamped(m, s.store.cache[m.block])));
    } else {
      SourcesFrame(log, s, t);
    }
  }

  lemma CacheSources(log: Log, s: State, step: Step)
    requires SourcesOk(log, s) && Enabled(log, s, step) && (step.CacheReply? || step.CacheChanges?)
    ensures SourcesOk(log, Apply(log, s, step))
  {
    SourcesFrame(log, s, Apply(log, s, step));
  }

  lemma EmptiedSources(log: Log, s: State, step: Step)
    requires SourcesOk(log, s) && Enabled(log, s, step) && (step.Crash? || step.ClearBatches?)
    ensures SourcesOk(log, Apply(log, s, step))
  {
    SourcesFrame(log, s, Apply(log, s, step));
  }

  lemma UntouchedSources(log: Log, s: State, step: Step, t: State)
    requires SourcesOk(log, s) && Touches(s, step, t)
    requires !(step.PollMessage? || step.LookupReply? || step.CacheReply? || step.CacheChanges? || step.Crash? || step.ClearBatches?)
    ensures SourcesOk(log, t)
  {
    SourcesFrame(log, s, t);
  }

  lemma SourcesKept(log: Log, s: State, step: Step, t: State)
    requires SourcesOk(log, s) && Enabled(log, s, step) && t == Apply(log, s, step) && Touches(s, step, t)
    ensures SourcesOk(log, t)
  {
    if step.PollMessage? { PollSources(log, s, step.part, step.now); }
    else if step.LookupReply? { LookupSources(log, s, step.raised); }
    else if step.CacheReply? || step.CacheChanges? { CacheSources(log, s, step); }
    else if step.Crash? || step.ClearBatches? { EmptiedSources(log, s, step); }
    else { UntouchedSources(log, s, step, t); }
  }

  lemma LandKeepsRows(log: Log, s: State)
    requires SourcesOk(log, s) && RowsOk(log, s)
    ensures RowsOk(log, LandBatches(s))
  {
    var t := LandBatches(s);
    var xs, ys := TxValues(s.proc.txBatch), TransferValues(s.proc.transferBatch);
    InsertIgnoreMeaning(s.store.txs, xs);
    InsertIgnoreMeaning(s.store.transfers, ys);
    forall k | k in t.store.txs ensures k == KeyOf(t.store.txs[k]) && TxRowFrom(log, t.store.txs[k]) {
      if k !in s.store.txs {
        var i :| 0 <= i < |xs| && xs[i] == (k, t.store.txs[k]);
        BatchRowFrom(log, s.proc.txBatch[i]);
      }
    }
    forall k | k in t.store.transfers
      ensures k == TransferKeyOf(t.store.transfers[k]) && TransferRowFrom(log, t.store.transfers[k])
    {
      if k !in s.store.transfers {
        var i :| 0 <= i < |ys| && ys[i] == (k, t.store.transfers[k]);
        BatchTransferFrom(log, s.proc.transferBatch[i]);
      }
    }
  }

  lemma BatchRowFrom(log: Log, e: Buffered<Tx>)
    requires TxFrom(log, e)
    ensures TxRowFrom(log, e.item)
  {
    assert e == Buffered(e.origin, e.item);
  }

  lemma BatchTransferFrom(log: Log, e: Buffered<Transfer>)
    requires TransferFrom(log, e)
    ensures TransferRowFrom(log, e.item)
  {
    assert e == Buffered(e.origin, e.item);
  }

  lemma LandGrows(s: State)
    ensures Grows(s, LandBatches(s)) && RowsCommitted(LandBatches(s))
  {
    var xs, ys := TxValues(s.proc.txBatch), TransferValues(s.proc.transferBatch);
    InsertIgnoreMeaning(s.store.txs, xs);
    InsertIgnoreMeaning(s.store.transfers, ys);
    assert forall i :: 0 <= i < |xs| ==> xs[i].0 == KeyOf(s.proc.txBatch[i].item);
    assert forall i :: 0 <= i < |ys| ==> ys[i].0 == TransferKeyOf(s.proc.transferBatch[i].item);
  }

  lemma CommitRows(log: Log, s: State, outcome: DbOutcome)
    requires SourcesOk(log, s) && RowsOk(log, s) && Enabled(log, s, DbCommit(outcome))
    ensures RowsOk(log, Apply(log, s, DbCommit(outcome)))
  {
    LandKeepsRows(log, s);
    var t := Apply(log, s, DbCommit(outcome));
    if outcome.Lost? { SameTables(log, s, t); } else { SameTables(log, LandBatches(s), t); }
  }

  lemma SameTables(log: Log, s: State, t: State)
    requires RowsOk(log, s) && t.store.txs == s.store.txs && t.store.transfers == s.store.transfers
    ensures RowsOk(log, t)
  {
  }

  lemma RowsKept(log: Log, s: State, step: Step, t: State)
    requires SourcesOk(log, s) && RowsOk(log, s)
    requires Enabled(log, s, step) && t == Apply(log, s, step) && Touches(s, step, t)
    ensures RowsOk(log, t)
  {
    if step.DbCommit? {
      CommitRows(log, s, step.outcome);
    } else {
      SameTables(log, s, t);
    }
  }

  /** What messages rest on only grows. */
  lemma CommitGrows(log: Log, s: State, outcome: DbOutcome)
    requires Enabled(log, s, DbCommit(outcome))
    ensures Grows(s, Apply(log, s, DbCommit(outcome)))
  {
    LandGrows(s);
  }

  lemma DeliveryGrows(log: Log, s: State, step: Step)
    requires Enabled(log, s, step) && (step.AlertArrives? || step.Callback? || step.LookupReply?)
    ensures Grows(s, Apply(log, s, step))
  {
  }

  lemma StepGrows(log: Log, s: State, step: Step, t: State)
    requires Enabled(log, s, step) && t == Apply(log, s, step) && Touches(s, step, t)
    ensures Grows(s, t)
  {
    if step.DbCommit? { CommitGrows(log, s, step.outcome); }
    else if step.AlertArrives? || step.Callback? || step.LookupReply? { DeliveryGrows(log, s, step); }
  }

  // The alerts.

  lemma ArrivalAlerts(log: Log, s: State, step: Step)
    requires AlertsOk(s) && Enabled(log, s, step) && (step.AlertArrives? || step.Crash?)
    ensures AlertsOk(Apply(log, s, step))
  {
  }

  lemma CallbackAlerts(log: Log, s: State, i: nat, ok: bool)
    requires AlertsOk(s) && Enabled(log, s, Callback(i, ok))
    ensures AlertsOk(Apply(log, s, Callback(i, ok)))
  {
  }

  lemma SendAlerts(log: Log, s: State, accepted: bool)
    requires AlertsOk(s) && PhaseOk(s) && Enabled(log, s, Send(accepted))
    ensures AlertsOk(Apply(log, s, Send(accepted)))
  {
    WhalesMeaning(s.proc.txBatch);
    assert Whales(s.proc.txBatch)[s.proc.pc.next] in Whales(s.proc.txBatch);
  }

  lemma DrainAlerts(log: Log, s: State)
    requires AlertsOk(s) && Enabled(log, s, Drain)
    ensures AlertsOk(Apply(log, s, Drain))
  {
  }

  lemma UntouchedAlerts(s: State, step: Step, t: State)
    requires AlertsOk(s) && Touches(s, step, t) && Grows(s, t)
    requires !IsPublish(step) && !step.AlertArrives? && !step.Crash?
    ensures AlertsOk(t)
  {
  }

  lemma AlertsKept(log: Log, s: State, step: Step, t: State)
    requires AlertsOk(s) && PhaseOk(s)
    requires Enabled(log, s, step) && t == Apply(log, s, step) && Touches(s, step, t) && Grows(s, t)
    ensures AlertsOk(t)
  {
    if step.AlertArrives? || step.Crash? { ArrivalAlerts(log, s, step); }
    else if step.Callback? { CallbackAlerts(log, s, step.index, step.ok); }
    else if step.Send? { SendAlerts(log, s, step.accepted); }
    else if step.Drain? { DrainAlerts(log, s); }
    else { UntouchedAlerts(s, step, t); }
  }

  // The progress of a flush.

  lemma CommitPhase(log: Log, s: State, outcome: DbOutcome)
    requires Enabled(log, s, DbCommit(outcome))
    ensures PhaseOk(Apply(log, s, DbCommit(outcome)))
  {
    LandGrows(s);
    var t := Apply(log, s, DbCommit(outcome));
    if outcome.Landed? {
      assert t.store == LandBatches(s).store && t.proc == LandBatches(s).proc.(pc := t.proc.pc);
      assert RowsCommitted(t);
    }
  }

  lemma SendPhase(log: Log, s: State, accepted: bool)
    requires PhaseOk(s) && Enabled(log, s, Send(accepted))
    ensures PhaseOk(Apply(log, s, Send(accepted)))
  {
    var t := Apply(log, s, Send(accepted));
    if accepted {
      var ws := Whales(s.proc.txBatch);
      forall i | 0 <= i <= s.proc.pc.next ensures Tracked(t, ws[i]) {
        if i < s.proc.pc.next { assert Tracked(s, ws[i]); }
        else { assert t.proc.queue[|s.proc.queue|] == ws[i]; }
      }
      assert RowsCommitted(t);
    }
  }

  lemma CallbackPhase(log: Log, s: State, i: nat, ok: bool)
    requires PhaseOk(s) && Enabled(log, s, Callback(i, ok))
    ensures PhaseOk(Apply(log, s, Callback(i, ok)))
  {
    var t := Apply(log, s, Callback(i, ok));
    forall w | Tracked(s, w) ensures Tracked(t, w) { CallbackKeepsTrack(s, i, ok, w); }
    assert RowsCommitted(s) ==> RowsCommitted(t);
  }

  lemma DrainPhase(log: Log, s: State)
    requires PhaseOk(s) && Enabled(log, s, Drain)
    ensures PhaseOk(Apply(log, s, Drain))
  {
    var t := Apply(log, s, Drain);
    if t.proc.pc.Alerted? {
      var ws := Whales(s.proc.txBatch);
      forall i | 0 <= i < |ws| ensures ws[i] in t.store.delivered { assert Tracked(s, ws[i]); }
      assert RowsCommitted(t);
    }
  }

  lemma RequestPhase(log: Log, s: State, raised: bool)
    requires PhaseOk(s) && Enabled(log, s, RequestOffsets(raised))
    ensures PhaseOk(Apply(log, s, RequestOffsets(raised)))
  {
    assert RowsCommitted(s) ==> RowsCommitted(Apply(log, s, RequestOffsets(raised)));
  }

  /** A restart and the end of a flush are outside the part of the program this clause speaks of. */
  lemma OutsidePhase(s: State)
    requires !InFlight(s.proc.pc)
    ensures PhaseOk(s)
  {
  }

  lemma InsidePhase(s: State, step: Step, t: State)
    requires PhaseOk(s) && Touches(s, step, t) && Grows(s, t) && InFlight(t.proc.pc)
    requires t.proc.txBatch == s.proc.txBatch && t.proc.transferBatch == s.proc.transferBatch
    requires !(step.DbCommit? || IsPublish(step) || step.RequestOffsets? || step.Crash?)
    ensures PhaseOk(t)
  {
    assert RowsCommitted(s) ==> RowsCommitted(t);
    assert forall w :: Tracked(s, w) ==> Tracked(t, w);
  }

  /** The four steps that replace a batch are not taken, or do not end, inside a flush. */
  lemma BatchStepsOutside(log: Log, s: State, step: Step)
    requires Enabled(log, s, step) && (step.PollMessage? || step.LookupReply? || step.Crash? || step.ClearBatches?)
    ensures !InFlight(Apply(log, s, step).proc.pc)
  {
  }

  lemma PhaseKept(log: Log, s: State, step: Step, t: State)
    requires PhaseOk(s) && Enabled(log, s, step) && t == Apply(log, s, step) && Touches(s, step, t) && Grows(s, t)
    ensures PhaseOk(t)
  {
    if step.DbCommit? { CommitPhase(log, s, step.outcome); }
    else if step.Callback? { CallbackPhase(log, s, step.index, step.ok); }
    else if step.Send? { SendPhase(log, s, step.accepted); }
    else if step.Drain? { DrainPhase(log, s); }
    else if step.RequestOffsets? { RequestPhase(log, s, step.raised); }
    else if !InFlight(t.proc.pc) { OutsidePhase(t); }
    else {
      if step.PollMessage? || step.LookupReply? || step.Crash? || step.ClearBatches? { BatchStepsOutside(log, s, step); }
      InsidePhase(s, step, t);
    }
  }

  lemma {:induction false} RunKeepsPhase(log: Log, s: State, steps: seq<Step>)
    requires PhaseOk(s) && Legal(log, s, steps)
    ensures PhaseOk(Run(log, s, steps))
  {
    if steps != [] {
      var k := |steps| - 1;
      RunKeepsPhase(log, s, steps[..k]);
      var before := Run(log, s, steps[..k]);
      var after := Apply(log, before, steps[k]);
      Footprint(log, before, steps[k]);
      StepGrows(log, before, steps[k], after);
      PhaseKept(log, before, steps[k], after);
    }
  }

  lemma CallbackKeepsTrack(s: State, index: nat, ok: bool, w: Tx)
    requires index < |s.proc.queue| && Tracked(s, w)
    ensures Tracked(OnDelivery(s, index, ok), w)
  {
    if w in s.proc.queue && w != s.proc.queue[index] {
      var j :| 0 <= j < |s.proc.queue| && s.proc.queue[j] == w;
      var q := OnDelivery(s, index, ok).proc.queue;
      assert w == if j < index then q[j] else q[j - 1];
    }
  }

  // Coverage, the clause that says nothing is lost.

  lemma BufferedStays(a: Proc, b: Proc, o: Origin)
    requires a.txBatch <= b.txBatch && a.transferBatch <= b.transferBatch
    requires InHand(a, o) && (a.pc.Enriching? && a.pc.origin == o ==> b.pc.Enriching? && b.pc.origin == o)
    ensures InHand(b, o)
  {
    if i :| 0 <= i < |a.txBatch| && a.txBatch[i].origin == o {
      assert b.txBatch[i].origin == o;
    } else if i :| 0 <= i < |a.transferBatch| && a.transferBatch[i].origin == o {
      assert b.transferBatch[i].origin == o;
    }
  }

  /** The message just read is settled at once (there is nothing to store) or in hand. */
  lemma PollHolds(log: Log, s: State, part: Part, now: int)
    requires OffsetsOk(log, s) && Enabled(log, s, PollMessage(part, now))
    ensures var t := Apply(log, s, PollMessage(part, now)); var o := s.proc.position[part];
      Settled(log, t.store, t.hist, part, o) || InHand(t.proc, Origin(part, o))
  {
    var t := Apply(log, s, PollMessage(part, now));
    var o := s.proc.position[part];
    match log[part][o]
    case Transaction(b) =>
      if !b.stamp.Absent? { assert t.proc.txBatch[|s.proc.txBatch|].origin == Origin(part, o); }
    case TokenTransfer(b) =>
      if !b.stamp.Absent? { assert t.proc.transferBatch[|s.proc.transferBatch|].origin == Origin(part, o); }
    case _ =>
  }

  lemma PollShape(log: Log, s: State, part: Part, now: int)
    requires OffsetsOk(log, s) && Enabled(log, s, PollMessage(part, now))
    ensures var t := Apply(log, s, PollMessage(part, now));
      t.store == s.store && t.hist == s.hist && s.proc.txBatch <= t.proc.txBatch && s.proc.transferBatch <= t.proc.transferBatch &&
      t.proc.position == s.proc.position[part := s.proc.position[part] + 1] && OffsetsOk(log, t)
  {
  }

  lemma PollCoverage(log: Log, s: State, part: Part, now: int)
    requires OffsetsOk(log, s) && CoverageOk(log, s) && Enabled(log, s, PollMessage(part, now))
    ensures var t := Apply(log, s, PollMessage(part, now)); OffsetsOk(log, t) && CoverageOk(log, t)
  {
    var t := Apply(log, s, PollMessage(part, now));
    PollShape(log, s, part, now);
    PollHolds(log, s, part, now);
    forall p, q: nat | p in log && q < t.proc.position[p]
      ensures Settled(log, t.store, t.hist, p, q) || InHand(t.proc, Origin(p, q))
    {
      if Origin(p, q) != Origin(part, s.proc.position[part]) && !Settled(log, s.store, s.hist, p, q) {
        assert q < s.proc.position[p];
        BufferedStays(s.proc, t.proc, Origin(p, q));
      }
    }
  }

  /** The transfer in hand stays there, gets into the batch, or is settled as given up. */
  lemma LookupSettles(log: Log, s: State, raised: bool, t: State)
    requires Enabled(log, s, LookupReply(raised)) && t == Apply(log, s, LookupReply(raised))
    requires var o := s.proc.pc.origin; o.part in log && o.offset < |log[o.part]| && log[o.part][o.offset].TokenTransfer?
    ensures var o := s.proc.pc.origin; InHand(t.proc, o) || Settled(log, t.store, t.hist, o.part, o.offset)
  {
    if |t.proc.transferBatch| > |s.proc.transferBatch| {
      assert t.proc.transferBatch[|s.proc.transferBatch|].origin == s.proc.pc.origin;
    }
  }

  lemma LookupCoverage(log: Log, s: State, raised: bool)
    requires OffsetsOk(log, s) && SourcesOk(log, s) && CoverageOk(log, s) && Enabled(log, s, LookupReply(raised))
    ensures var t := Apply(log, s, LookupReply(raised)); OffsetsOk(log, t) && CoverageOk(log, t)
  {
    var t := Apply(log, s, LookupReply(raised));
    LookupSettles(log, s, raised, t);
    forall o: Origin | InHand(s.proc, o) && o.part in log && o.offset < |log[o.part]|
      ensures InHand(t.proc, o) || Settled(log, t.store, t.hist, o.part, o.offset)
    {
      if s.proc.pc.origin != o { BufferedStays(s.proc, t.proc, o); }
    }
    CoverageStays(log, s, t);
  }

  lemma RestartCoverage(log: Log, s: State)
    requires OffsetsOk(log, s) && CoverageOk(log, s)
    ensures var t := Apply(log, s, Crash); OffsetsOk(log, t) && CoverageOk(log, t)
  {
    var t := Apply(log, s, Crash);
    BelowStays(log, s, t, s.store.committed);
    forall r | r in s.store.requested ensures SettledBelow(log, t.store, t.hist, r) { BelowStays(log, s, t, r); }
  }

  lemma RequestCoverage(log: Log, s: State, raised: bool)
    requires OffsetsOk(log, s) && CoverageOk(log, s) && SourcesOk(log, s) && PhaseOk(s) && Enabled(log, s, RequestOffsets(raised))
    ensures var t := Apply(log, s, RequestOffsets(raised)); OffsetsOk(log, t) && CoverageOk(log, t)
  {
    var t := Apply(log, s, RequestOffsets(raised));
    PublishedMeansSettled(log, s);
    forall r | r in t.store.requested ensures ValidOffsets(log, r) && SettledBelow(log, t.store, t.hist, r) {
      BelowStays(log, s, t, r);
    }
    BelowStays(log, s, t, s.store.committed);
    BelowStays(log, s, t, s.proc.position);
  }

  lemma ClearCoverage(log: Log, s: State)
    requires OffsetsOk(log, s) && CoverageOk(log, s) && SourcesOk(log, s) && PhaseOk(s) && Enabled(log, s, ClearBatches)
    ensures var t := Apply(log, s, ClearBatches); OffsetsOk(log, t) && CoverageOk(log, t)
  {
    var t := Apply(log, s, ClearBatches);
    PublishedMeansSettled(log, s);
    BelowStays(log, s, t, s.proc.position);
    BelowStays(log, s, t, s.store.committed);
    forall r | r in s.store.requested ensures SettledBelow(log, t.store, t.hist, r) { BelowStays(log, s, t, r); }
  }

  lemma UntouchedCoverage(log: Log, s: State, step: Step, t: State)
    requires OffsetsOk(log, s) && CoverageOk(log, s) && Touches(s, step, t) && Grows(s, t)
    requires !(step.PollMessage? || step.LookupReply? || step.Crash? || step.RequestOffsets? || step.ClearBatches?)
    requires s.proc.pc.Enriching? ==> t.proc.pc == s.proc.pc
    requires step.OffsetLands? ==> t.store.committed in s.store.requested
    ensures OffsetsOk(log, t) && CoverageOk(log, t)
  {
    forall o: Origin | InHand(s.proc, o) ensures InHand(t.proc, o) { BufferedStays(s.proc, t.proc, o); }
    CoverageStays(log, s, t);
  }

  /** While a lookup is pending only the environment and the lookup itself move. */
  lemma EnrichingStays(log: Log, s: State, step: Step)
    requires Enabled(log, s, step) && !step.LookupReply? && !step.Crash? && s.proc.pc.Enriching?
    ensures Apply(log, s, step).proc.pc == s.proc.pc
  {
  }

  lemma LandingIsRequested(log: Log, s: State, step: Step)
    requires Enabled(log, s, step) && step.OffsetLands?
    ensures Apply(log, s, step).store.committed in s.store.requested
  {
  }

  lemma CoverageKept(log: Log, s: State, step: Step, t: State)
    requires OffsetsOk(log, s) && CoverageOk(log, s) && SourcesOk(log, s) && PhaseOk(s)
    requires Enabled(log, s, step) && t == Apply(log, s, step) && Touches(s, step, t) && Grows(s, t)
    ensures OffsetsOk(log, t) && CoverageOk(log, t)
  {
    if step.PollMessage? { PollCoverage(log, s, step.part, step.now); }
    else if step.LookupReply? { LookupCoverage(log, s, step.raised); }
    else if step.Crash? { RestartCoverage(log, s); }
    else if step.RequestOffsets? { RequestCoverage(log, s, step.raised); }
    else if step.ClearBatches? { ClearCoverage(log, s); }
    else {
      if s.proc.pc.Enriching? { EnrichingStays(log, s, step); }
      if step.OffsetLands? { LandingIsRequested(log, s, step); }
      UntouchedCoverage(log, s, step, t);
    }
  }

  lemma StepKeepsInv(log: Log, s: State, step: Step)
    requires Inv(log, s) && Enabled(log, s, step)
    ensures Inv(log, Apply(log, s, step))
  {
    var t := Apply(log, s, step);
    Footprint(log, s, step);
    StepGrows(log, s, step, t);
    CoverageKept(log, s, step, t);
    SourcesKept(log, s, step, t);
    AlertsKept(log, s, step, t);
    PhaseKept(log, s, step, t);
    RowsKept(log, s, step, t);
    SizeKept(log, s, step);
  }

  lemma {:induction false} RunKeepsInv(log: Log, s: State, steps: seq<Step>)
    requires Inv(log, s) && Legal(log, s, steps)
    ensures Inv(log, Run(log, s, steps))
  {
    if steps != [] {
      var k := |steps| - 1;
      RunKeepsInv(log, s, steps[..k]);
      StepKeepsInv(log, Run(log, s, steps[..k]), steps[k]);
    }
  }

  lemma EveryRunKeepsInv(log: Log, steps: seq<Step>)
    requires Legal(log, Init(log), steps)
    ensures Inv(log, Run(log, Init(log), steps))
  {
    RunKeepsInv(log, Init(log), steps);
  }
}
