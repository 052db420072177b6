/** What the consumer promises, over every run from the empty state. */
module Guarantees {
  import opened Wrappers
  import opened Messages
  import opened Tables
  import opened Protocol
  import opened StepFootprint
  import opened Safety
  import opened Replay
  import opened TransferTable

  ghost predicate Reachable(log: Log, s: State) {
    exists steps :: Legal(log, Init(log), steps) && s == Run(log, Init(log), steps)
  }

  lemma InitReachable(log: Log)
    ensures Reachable(log, Init(log))
  {
    assert Legal(log, Init(log), []);
  }

  lemma RunReaches(log: Log, s: State, more: seq<Step>)
    requires Reachable(log, s) && Legal(log, s, more)
    ensures Reachable(log, Run(log, s, more))
  {
    var steps :| Legal(log, Init(log), steps) && s == Run(log, Init(log), steps);
    Chain(log, Init(log), steps, more);
  }

  lemma StepReaches(log: Log, s: State, step: Step)
    requires Reachable(log, s) && Enabled(log, s, step)
    ensures Reachable(log, Apply(log, s, step))
  {
    Single(log, s, step);
    RunReaches(log, s, [step]);
  }

  lemma ReachableKeeps(log: Log, s: State)
    requires Reachable(log, s)
    ensures ReplayInv(log, s)
  {
    var steps :| Legal(log, Init(log), steps) && s == Run(log, Init(log), steps);
    EveryRunKeepsReplayInv(log, steps);
  }

  /** The wanted part of the transactions table, were the log read once up to `hw`, in order, with no fault. */
  function TableOf(msgs: seq<Message>, hw: nat, keep: TxKey -> bool): map<TxKey, Tx>
    requires hw <= |msgs|
  {
    InsertIgnore(map[], TxRows(msgs, 0, hw, keep))
  }

  /** No committed or committable offset lies beyond `hw`. */
  ghost predicate PastCommittable(s: State, hw: Offsets) {
    AtMost(s.store.committed, hw) && forall r :: r in s.store.requested ==> AtMost(r, hw)
  }

  /** The wanted rows are those of one fault-free pass over log[p0][..hw[p0]]. */
  ghost predicate FoldsTo(log: Log, s: State, hw: Offsets, p0: Part, keep: TxKey -> bool)
    requires ValidOffsets(log, hw) && p0 in log
  {
    Kept(s.store.txs, keep) == TableOf(log[p0], hw[p0], keep)
  }

  /**
   Crash-replay refinement: one prefix of each partition, past every committable offset, such that the rows of the
   transactions a partition has for its own, with times of their own, are those of one fault-free pass over its prefix,
   whatever the other partitions carry.
   */
  lemma TableIsPrefixOfLog(log: Log, s: State)
    requires Reachable(log, s)
    ensures exists hw ::
      && ValidOffsets(log, hw) && PastCommittable(s, hw)
      && forall p0, keep :: OwnKeys(log, p0, keep) ==> FoldsTo(log, s, hw, p0, keep)
  {
    ReachableKeeps(log, s);
    var hw := s.hist.landed;
    assert ValidOffsets(log, hw) && PastCommittable(s, hw);
    forall p0, keep | OwnKeys(log, p0, keep) ensures FoldsTo(log, s, hw, p0, keep) { FoldAtLanded(log, s, p0, keep); }
  }

  lemma FoldAtLanded(log: Log, s: State, p0: Part, keep: TxKey -> bool)
    requires OwnKeys(log, p0, keep) && Reachable(log, s) && ValidOffsets(log, s.hist.landed)
    ensures FoldsTo(log, s, s.hist.landed, p0, keep)
  {
    var steps :| Legal(log, Init(log), steps) && s == Run(log, Init(log), steps);
    EveryRunKeepsFold(log, p0, steps, keep);
  }

  predicate Any(k: TxKey) { true }

  ghost predicate OnlyTxPartition(log: Log, p0: Part) {
    p0 in log && forall p, o: nat :: p in log && o < |log[p]| && log[p][o].Transaction? ==> p == p0
  }

  /** With one transactions partition, and no transaction that leaves its time to the clock, that is the whole table. */
  lemma WholeTableIsPrefixOfLog(log: Log, p0: Part, s: State)
    requires OnlyTxPartition(log, p0) && (forall hash :: HashStable(log, hash)) && Reachable(log, s)
    ensures p0 in s.store.committed
    ensures exists hw: nat ::
      s.store.committed[p0] <= hw <= |log[p0]| && s.store.txs == TableOf(log[p0], hw, Any)
  {
    forall k: TxKey ensures HashOwned(log, p0, k.hash) { assert HashStable(log, k.hash); }
    ReachableKeeps(log, s);
    FoldAtLanded(log, s, p0, Any);
    AllKept(s.store.txs, Any);
    assert s.store.committed[p0] <= s.hist.landed[p0];
  }

  ghost predicate KeyBelow(log: Log, hw: Offsets, k: TxKey)
    requires ValidOffsets(log, hw)
  {
    exists p, o: nat :: p in log && o < hw[p] && Accepted(log[p][o]) && RowOf(log[p][o].tx).0 == k
  }

  ghost predicate KeysAre(log: Log, hw: Offsets, s: State)
    requires ValidOffsets(log, hw)
  {
    forall k: TxKey :: HashStable(log, k.hash) ==> (k in s.store.txs <==> KeyBelow(log, hw, k))
  }

  /**
   For any number of partitions: the keys of all transactions that do not leave their time to the clock are those of a
   prefix of each, past every committable offset.
   */
  lemma TableKeysAreOfPrefixes(log: Log, s: State)
    requires Reachable(log, s)
    ensures exists hw :: ValidOffsets(log, hw) && PastCommittable(s, hw) && KeysAre(log, hw, s)
  {
    ReachableKeeps(log, s);
    KeysAreBelowLanded(log, s);
    assert ValidOffsets(log, s.hist.landed) && PastCommittable(s, s.hist.landed);
  }

  lemma KeysAreBelowLanded(log: Log, s: State)
    requires ShapeOk(log, s) && LandedOk(log, s) && KeysOk(log, s) && RowsOk(log, s)
    ensures KeysAre(log, s.hist.landed, s)
  {
    forall k: TxKey | HashStable(log, k.hash) ensures k in s.store.txs <==> KeyBelow(log, s.hist.landed, k) {
      if k in s.store.txs {
        assert RowBelow(log, s.hist.landed, s.store.txs[k]) && k == KeyOf(s.store.txs[k]);
        RowKeyBelow(log, s.hist.landed, s.store.txs[k]);
      }
      if KeyBelow(log, s.hist.landed, k) { KeyBelowStored(log, s, k); }
    }
  }

  lemma KeyBelowStored(log: Log, s: State, k: TxKey)
    requires HashStable(log, k.hash) && ShapeOk(log, s) && LandedOk(log, s) && KeysOk(log, s)
    requires KeyBelow(log, s.hist.landed, k)
    ensures k in s.store.txs
  {
    var p, o: nat :| p in log && o < s.hist.landed[p] && Accepted(log[p][o]) && RowOf(log[p][o].tx).0 == k;
    var tx :| Reads(log[p][o].tx, tx) && KeyOf(tx) in s.store.txs;
  }

  lemma RowKeyBelow(log: Log, hw: Offsets, row: Tx)
    requires HashStable(log, row.hash) && ValidOffsets(log, hw) && RowBelow(log, hw, row)
    ensures KeyBelow(log, hw, KeyOf(row))
  {
    var o: Origin :| Below(hw, o) && TxFrom(log, Buffered(o, row));
    var m := log[o.part][o.offset];
    assert Accepted(m) && Stable(m.tx.stamp);
    assert RowOf(m.tx).0 == KeyOf(row);
  }

  /** No accepted transaction below the committed offset is missing from the table, on any run. */
  lemma NoTransactionLost(log: Log, s: State, p: Part, o: nat)
    requires Reachable(log, s) && p in log && p in s.store.committed && o < s.store.committed[p]
    ensures o < |log[p]|
    ensures Accepted(log[p][o]) ==>
      var b := log[p][o].tx;
      exists k :: k in s.store.txs && k.hash == b.hash && (Stable(b.stamp) ==> k.timestamp == b.stamp.seconds)
  {
    ReachableKeeps(log, s);
    assert Settled(log, s.store, s.hist, p, o);
    if Accepted(log[p][o]) {
      var b := log[p][o].tx;
      var tx :| Reads(b, tx) && KeyOf(tx) in s.store.txs;
      assert KeyOf(tx).hash == b.hash;
    }
  }

  /** Every whale below the committed offset has an alert in the topic, on any run. */
  lemma WhaleAlertsDelivered(log: Log, s: State, p: Part, o: nat)
    requires Reachable(log, s) && p in log && p in s.store.committed && o < s.store.committed[p]
    ensures o < |log[p]|
    ensures Accepted(log[p][o]) && log[p][o].tx.value >= 100_000_000_000_000_000_000 ==>
      exists a :: a in s.store.delivered && Reads(log[p][o].tx, a)
  {
    ReachableKeeps(log, s);
    assert Settled(log, s.store, s.hist, p, o);
  }

  /** No alert is in the topic, or can still arrive there, before its row is durable, nor one of less than 100 ETH. */
  lemma AlertsFollowRows(log: Log, s: State, a: Tx)
    requires Reachable(log, s) && (a in s.store.delivered || a in s.store.handed)
    ensures TxKey(a.hash, a.timestamp) in s.store.txs && a.value >= 100_000_000_000_000_000_000
  {
    ReachableKeeps(log, s);
  }

  predicate NoRedisFailure(steps: seq<Step>) {
    LookupReply(true) !in steps
  }

  lemma ReturnDropsNothing(log: Log, s: State)
    requires Enabled(log, s, LookupReply(false))
    ensures Apply(log, s, LookupReply(false)).hist.dropped == s.hist.dropped
  {
  }

  lemma {:induction false} NothingDropped(log: Log, steps: seq<Step>)
    requires Legal(log, Init(log), steps) && NoRedisFailure(steps)
    ensures Run(log, Init(log), steps).hist.dropped == {}
  {
    if steps != [] {
      var k := |steps| - 1;
      assert steps[k] in steps;
      NothingDropped(log, steps[..k]);
      var s := Run(log, Init(log), steps[..k]);
      if steps[k].LookupReply? { ReturnDropsNothing(log, s); } else { Footprint(log, s, steps[k]); }
    }
  }

  /**
   A transfer below the committed offset is stored, or was skipped for want of a block time, on every
   run in which the Redis reads return.
   */
  lemma NoTransferLost(log: Log, steps: seq<Step>, p: Part, o: nat)
    requires Legal(log, Init(log), steps) && NoRedisFailure(steps)
    requires p in log
    ensures var s := Run(log, Init(log), steps);
      p in s.store.committed && s.store.committed[p] <= |log[p]| &&
      (o < s.store.committed[p] && log[p][o].TokenTransfer? ==>
        Origin(p, o) in s.hist.skipped ||
        exists t :: ReadsTransfer(log, log[p][o].transfer, t) && TransferKeyOf(t) in s.store.transfers)
  {
    EveryRunKeepsReplayInv(log, steps);
    NothingDropped(log, steps);
    var s := Run(log, Init(log), steps);
    if o < s.store.committed[p] && log[p][o].TokenTransfer? {
      assert Settled(log, s.store, s.hist, p, o);
    }
  }

  /** A skipped transfer is one that asked Redis for its block time eleven times and got none. */
  lemma OnlyAfterRetries(log: Log, s: State, step: Step, o: Origin)
    requires Enabled(log, s, step)
    requires o !in s.hist.skipped && o in Apply(log, s, step).hist.skipped
    ensures step == LookupReply(false) && s.proc.pc.Enriching? && s.proc.pc.origin == o
    ensures s.proc.pc.retries >= 10 && s.proc.pc.model.block !in s.store.cache
  {
  }

  /** The wanted rows of token_transfers are those of one fault-free pass over log[p0][..hw[p0]]. */
  ghost predicate TransfersFoldTo(log: Log, s: State, hw: Offsets, p0: Part, keep: TransferKey -> bool)
    requires ValidOffsets(log, hw) && p0 in log
  {
    Kept(s.store.transfers, keep) == InsertIgnore(map[], RowsOf(log[p0], 0, hw[p0], TransferRow(keep)))
  }

  /** The same refinement for token_transfers: for the transfers a partition has for its own, with times of their own. */
  lemma TransfersArePrefixOfLog(log: Log, s: State)
    requires Reachable(log, s)
    ensures exists hw ::
      && ValidOffsets(log, hw) && PastCommittable(s, hw)
      && forall p0, keep :: OwnTransferKeys(log, p0, keep) ==> TransfersFoldTo(log, s, hw, p0, keep)
  {
    ReachableKeeps(log, s);
    var hw := s.hist.landed;
    assert ValidOffsets(log, hw) && PastCommittable(s, hw);
    forall p0, keep | OwnTransferKeys(log, p0, keep) ensures TransfersFoldTo(log, s, hw, p0, keep) {
      TransferFoldAtLanded(log, s, p0, keep);
    }
  }

  lemma TransferFoldAtLanded(log: Log, s: State, p0: Part, keep: TransferKey -> bool)
    requires OwnTransferKeys(log, p0, keep) && Reachable(log, s) && ValidOffsets(log, s.hist.landed)
    ensures TransfersFoldTo(log, s, s.hist.landed, p0, keep)
  {
    var steps :| Legal(log, Init(log), steps) && s == Run(log, Init(log), steps);
    EveryRunKeepsTransferFold(log, p0, steps, keep);
  }

  // ---- the token_transfers table ----------------------------------------------------------------------

  /** A transfer below `hw`, not one of `except`, can be read as a row of key `k`. */
  ghost predicate TransferKeyBelow(log: Log, hw: Offsets, k: TransferKey, except: set<Origin>) {
    exists o, row :: Below(hw, o) && o !in except && TransferFrom(log, Buffered(o, row)) && TransferKeyOf(row) == k
  }

  /** No delivery of the transfer can be read with two times: each has its own, or its block has one. */
  ghost predicate TransferTimed(log: Log, hash: string, index: int) {
    forall o, a, b ::
      TransferFrom(log, Buffered(o, a)) && TransferFrom(log, Buffered(o, b)) && a.hash == hash && a.logIndex == index ==>
        a.timestamp == b.timestamp
  }

  /** Every delivery of the transfer comes with its own time. */
  ghost predicate TransferStable(log: Log, hash: string, index: int) {
    forall p, o: nat ::
      p in log && o < |log[p]| && log[p][o].TokenTransfer? && log[p][o].transfer.hash == hash && log[p][o].transfer.logIndex == index ==>
        Stable(log[p][o].transfer.stamp)
  }

  ghost predicate TransferKeysAre(log: Log, hw: Offsets, s: State) {
    && (forall k: TransferKey :: k in s.store.transfers ==> TransferKeyBelow(log, hw, k, {}))
    && (forall k: TransferKey :: TransferTimed(log, k.hash, k.logIndex) && TransferKeyBelow(log, hw, k, GivenUp(s)) ==>
         k in s.store.transfers)
    && (forall k: TransferKey :: TransferStable(log, k.hash, k.logIndex) ==>
         (k in s.store.transfers <==> TransferKeyBelow(log, hw, k, {})))
  }

  /**
   For any number of partitions, one prefix of each, past every committable offset: every key of the token_transfers
   table is that of a transfer in it; every transfer in it that has one time has its key in the table, unless it was
   skipped or dropped, which happens only to transfers without a time of their own.
   */
  lemma TransferKeysAreOfPrefixes(log: Log, s: State)
    requires Reachable(log, s)
    ensures exists hw :: ValidOffsets(log, hw) && PastCommittable(s, hw) && TransferKeysAre(log, hw, s)
    ensures forall o :: o in GivenUp(s) ==> Unstamped(log, o)
  {
    var steps :| Legal(log, Init(log), steps) && s == Run(log, Init(log), steps);
    EveryRunKeepsTransferKeys(log, steps);
    TransferKeysAreBelowLanded(log, s);
    assert ValidOffsets(log, s.hist.landed) && PastCommittable(s, s.hist.landed);
  }

  lemma TransferKeysAreBelowLanded(log: Log, s: State)
    requires ReplayInv(log, s) && TransferKeysOk(log, s)
    ensures TransferKeysAre(log, s.hist.landed, s)
  {
    var hw := s.hist.landed;
    forall k: TransferKey | k in s.store.transfers ensures TransferKeyBelow(log, hw, k, {}) {
      assert TransferBelow(log, hw, s.store.transfers[k]);
    }
    forall k: TransferKey | TransferKeyBelow(log, hw, k, GivenUp(s)) && TransferTimed(log, k.hash, k.logIndex)
      ensures k in s.store.transfers
    {
      TransferKeyStored(log, s, k);
    }
    forall k: TransferKey | TransferKeyBelow(log, hw, k, {}) && TransferStable(log, k.hash, k.logIndex)
      ensures k in s.store.transfers
    {
      StableIsTimed(log, s, k);
      TransferKeyStored(log, s, k);
    }
  }

  lemma StableIsTimed(log: Log, s: State, k: TransferKey)
    requires ValidOffsets(log, s.hist.landed) && TransferKeysOk(log, s)
    requires TransferStable(log, k.hash, k.logIndex) && TransferKeyBelow(log, s.hist.landed, k, {})
    ensures TransferTimed(log, k.hash, k.logIndex) && TransferKeyBelow(log, s.hist.landed, k, GivenUp(s))
  {
    var o: Origin, row :| Below(s.hist.landed, o) && TransferFrom(log, Buffered(o, row)) && TransferKeyOf(row) == k;
    assert Stable(log[o.part][o.offset].transfer.stamp);
    assert o !in GivenUp(s);
  }

  lemma TransferKeyStored(log: Log, s: State, k: TransferKey)
    requires ValidOffsets(log, s.hist.landed) && TransferKeysOk(log, s)
    requires TransferTimed(log, k.hash, k.logIndex) && TransferKeyBelow(log, s.hist.landed, k, GivenUp(s))
    ensures k in s.store.transfers
  {
    var o: Origin, row :|
      Below(s.hist.landed, o) && o !in GivenUp(s) && TransferFrom(log, Buffered(o, row)) && TransferKeyOf(row) == k;
    assert TransferDone(log, s, o.part, o.offset) && o == Origin(o.part, o.offset);
    var t :| ReadsTransfer(log, log[o.part][o.offset].transfer, t) && TransferKeyOf(t) in s.store.transfers;
    assert TransferFrom(log, Buffered(o, t));
  }

  // ---- redelivered transfers --------------------------------------------------------------------------

  ghost predicate BlockTimesAgree(log: Log) {
    forall n, a, b :: IsBlockTime(log, n, a) && IsBlockTime(log, n, b) ==> a == b
  }

  ghost predicate HasTransfer(log: Log, b: TransferBody) {
    exists p, o: nat :: p in log && o < |log[p]| && log[p][o] == TokenTransfer(b)
  }

  /** Deliveries of one transfer say the same about its block and its time, and do not leave the time to the clock. */
  ghost predicate TransfersAgree(log: Log) {
    forall a, b :: HasTransfer(log, a) && HasTransfer(log, b) && a.hash == b.hash && a.logIndex == b.logIndex ==>
      a.block == b.block && a.stamp == b.stamp && (a.stamp.Absent? || Stable(a.stamp))
  }

  lemma RowHasMessage(log: Log, s: State, k: TransferKey) returns (b: TransferBody)
    requires ReplayInv(log, s) && k in s.store.transfers
    ensures HasTransfer(log, b) && ReadsTransfer(log, b, s.store.transfers[k]) && TransferKeyOf(s.store.transfers[k]) == k
  {
    assert TransferRowFrom(log, s.store.transfers[k]);
    var o: Origin :| TransferFrom(log, Buffered(o, s.store.transfers[k]));
    b := log[o.part][o.offset].transfer;
    assert log[o.part][o.offset] == TokenTransfer(b);
  }

  /** Whatever is redelivered, and whenever the cache forgets, no transfer gets a second row. */
  lemma OneRowPerTransfer(log: Log, s: State, j: TransferKey, k: TransferKey)
    requires BlockTimesAgree(log) && TransfersAgree(log) && Reachable(log, s)
    requires j in s.store.transfers && k in s.store.transfers && j.hash == k.hash && j.logIndex == k.logIndex
    ensures j == k
  {
    ReachableKeeps(log, s);
    var a := RowHasMessage(log, s, j);
    var b := RowHasMessage(log, s, k);
  }

  /** A stored transfer that came without a timestamp carries its own block's. */
  lemma StoredTimeIsBlockTime(log: Log, s: State, k: TransferKey)
    requires Reachable(log, s) && k in s.store.transfers
    ensures exists b :: HasTransfer(log, b) && b.hash == k.hash && b.logIndex == k.logIndex &&
                        (b.stamp.Absent? ==> IsBlockTime(log, b.block, k.timestamp)) &&
                        (Stable(b.stamp) ==> k.timestamp == b.stamp.seconds)
  {
    ReachableKeeps(log, s);
    var b := RowHasMessage(log, s, k);
  }

  // ---- the buffer ---------------------------------------------------------------------------------------

  /** At the loop head: one full batch less one, and one more record per failed flush. */
  lemma BufferBound(log: Log, s: State)
    requires Reachable(log, s) && s.proc.pc.Head?
    ensures |s.proc.txBatch| + |s.proc.transferBatch| <= 99 + s.hist.failures
  {
    ReachableKeeps(log, s);
  }

  /** Per partition, the buffered transactions are the accepted ones read since the last flush, in log order. */
  lemma BufferIsUnflushedStretch(log: Log, s: State, p: Part)
    requires Reachable(log, s) && p in log
    ensures p in s.proc.position && p in s.hist.flushed && s.hist.flushed[p] <= s.proc.position[p] <= |log[p]|
    ensures OffsetsOf(s.proc.txBatch, p) == TxOffsets(log[p], s.hist.flushed[p], s.proc.position[p])
    ensures forall i :: 0 <= i < |s.proc.txBatch| ==> TxFrom(log, s.proc.txBatch[i])
  {
    ReachableKeeps(log, s);
  }

  /**
   Per partition, the buffered transfers are exactly those read since the last flush or restart, in log order, less
   those skipped or dropped since then and the one in hand, which is the last message read.
   */
  lemma BufferedTransfersInOrder(log: Log, s: State, p: Part)
    requires Reachable(log, s) && p in log
    ensures p in s.proc.position && p in s.hist.flushed && s.hist.flushed[p] <= s.proc.position[p] <= |log[p]|
    ensures var offsets := OffsetsOf(s.proc.transferBatch, p);
      && (forall i, j :: 0 <= i < j < |offsets| ==> offsets[i] < offsets[j])
      && (forall o: nat :: o in offsets <==>
           s.hist.flushed[p] <= o < s.proc.position[p] && log[p][o].TokenTransfer? &&
           Origin(p, o) !in s.hist.missed && !InLookup(s, Origin(p, o)))
    ensures forall o: nat :: InLookup(s, Origin(p, o)) ==> o + 1 == s.proc.position[p]
    ensures s.hist.missed <= s.hist.skipped + s.hist.dropped
    ensures forall i :: 0 <= i < |s.proc.transferBatch| ==> TransferFrom(log, s.proc.transferBatch[i])
  {
    ReachableKeeps(log, s);
    assert TransfersOk(log, s, p);
    TransferOffsetsMeaning(log[p], p, s.hist.flushed[p], TransferEnd(s, p), s.hist.missed);
    forall o: nat
      ensures Wanted(log[p], p, s.hist.flushed[p], TransferEnd(s, p), s.hist.missed, o) <==>
              s.hist.flushed[p] <= o < s.proc.position[p] && log[p][o].TokenTransfer? &&
              Origin(p, o) !in s.hist.missed && !InLookup(s, Origin(p, o))
    {
    }
  }

  /** The transfer read at `o` is waiting for its block time. */
  predicate InLookup(s: State, o: Origin) { s.proc.pc.Enriching? && s.proc.pc.origin == o }
}
