/** The token_transfers table against the log: what has landed in it, and what can be missing from it. */
module TransferTable {
  import opened Wrappers
  import opened Messages
  import opened Tables
  import opened Protocol
  import opened StepFootprint
  import opened Safety
  import opened Replay

  /** The transfers that were ever skipped or dropped. */
  function GivenUp(s: State): set<Origin> { s.hist.skipped + s.hist.dropped }

  ghost predicate Unstamped(log: Log, o: Origin) {
    o.part in log && o.offset < |log[o.part]| && log[o.part][o.offset].TokenTransfer? && log[o.part][o.offset].transfer.stamp.Absent?
  }

  ghost predicate TransferBelow(log: Log, hw: Offsets, row: Transfer) {
    exists o: Origin :: Below(hw, o) && TransferFrom(log, Buffered(o, row))
  }

  /**
   Only a transfer without a time of its own is ever given up; every transfer below what has landed is stored or was given
   up; every row is a reading of a transfer below what has landed.
   */
  ghost predicate TransferKeysOk(log: Log, s: State)
    requires ValidOffsets(log, s.hist.landed)
  {
    && (forall o :: o in GivenUp(s) ==> Unstamped(log, o))
    && (forall p, o: nat :: p in log && o < s.hist.landed[p] ==> TransferDone(log, s, p, o))
    && (forall k :: k in s.store.transfers ==> TransferBelow(log, s.hist.landed, s.store.transfers[k]))
  }

  ghost predicate TransferDone(log: Log, s: State, p: Part, o: nat)
    requires p in log && o < |log[p]|
  {
    log[p][o].TokenTransfer? ==> Settled(log, s.store, s.hist, p, o)
  }

  // ---- landing ---------------------------------------------------------------------------------------------------

  lemma BufferedTransferBelow(log: Log, s: State, i: nat)
    requires ShapeOk(log, s) && OrderOk(log, s) && SourcesOk(log, s) && i < |s.proc.transferBatch|
    ensures TransferBelow(log, s.proc.position, s.proc.transferBatch[i].item)
  {
    var e := s.proc.transferBatch[i];
    var o := e.origin;
    assert TransferFrom(log, e) && TransfersOk(log, s, o.part);
    OffsetsOfMeaning(s.proc.transferBatch, o.part);
    assert o.offset in OffsetsOf(s.proc.transferBatch, o.part) by { assert e.origin == Origin(o.part, o.offset); }
    TransferOffsetsAre(log[o.part], o.part, s.hist.flushed[o.part], TransferEnd(s, o.part), s.hist.missed, o.offset);
    assert Below(s.proc.position, o) && e == Buffered(o, e.item);
  }

  lemma BelowLater(log: Log, a: Offsets, b: Offsets, row: Transfer)
    requires TransferBelow(log, a, row) && AtMost(a, b)
    ensures TransferBelow(log, b, row)
  {
    var o: Origin :| Below(a, o) && TransferFrom(log, Buffered(o, row));
    assert Below(b, o);
  }

  /** The rows a flush leaves: an old one, or one of the batch. */
  lemma LandedTransfer(s: State, k: TransferKey)
    requires k in LandBatches(s).store.transfers
    ensures var row := LandBatches(s).store.transfers[k];
      || (k in s.store.transfers && row == s.store.transfers[k])
      || exists i :: 0 <= i < |s.proc.transferBatch| && s.proc.transferBatch[i].item == row
  {
    var xs := TransferValues(s.proc.transferBatch);
    InsertIgnoreMeaning(s.store.transfers, xs);
    if k !in s.store.transfers {
      var i :| 0 <= i < |xs| && xs[i] == (k, LandBatches(s).store.transfers[k]);
      assert s.proc.transferBatch[i].item == LandBatches(s).store.transfers[k];
    }
  }

  lemma LandedBelow(log: Log, s: State, k: TransferKey)
    requires ShapeOk(log, s) && OrderOk(log, s) && SourcesOk(log, s) && LandedOk(log, s)
    requires k in s.store.transfers ==> TransferBelow(log, s.hist.landed, s.store.transfers[k])
    requires k in LandBatches(s).store.transfers
    ensures TransferBelow(log, LandBatches(s).hist.landed, LandBatches(s).store.transfers[k])
  {
    var row := LandBatches(s).store.transfers[k];
    FurthestIsPast(s.hist.landed, s.proc.position);
    LandedTransfer(s, k);
    if k in s.store.transfers && row == s.store.transfers[k] {
      BelowLater(log, s.hist.landed, LandBatches(s).hist.landed, row);
    } else {
      var i :| 0 <= i < |s.proc.transferBatch| && s.proc.transferBatch[i].item == row;
      BufferedTransferBelow(log, s, i);
      BelowLater(log, s.proc.position, LandBatches(s).hist.landed, row);
    }
  }

  /** A transfer in the batch is stored once it has landed. */
  lemma LandSettles(log: Log, s: State, i: nat)
    requires SourcesOk(log, s) && i < |s.proc.transferBatch|
    ensures var o := s.proc.transferBatch[i].origin;
      o.part in log && o.offset < |log[o.part]| && TransferDone(log, LandBatches(s), o.part, o.offset)
  {
    LandGrows(s);
    var e := s.proc.transferBatch[i];
    assert TransferFrom(log, e);
    assert ReadsTransfer(log, log[e.origin.part][e.origin.offset].transfer, e.item);
    assert TransferKeyOf(LandBatches(s).proc.transferBatch[i].item) in LandBatches(s).store.transfers;
  }

  lemma NoTransaction(log: Log, s: State, o: Origin)
    requires SourcesOk(log, s) && o.part in log && o.offset < |log[o.part]| && log[o.part][o.offset].TokenTransfer?
    ensures forall i :: 0 <= i < |s.proc.txBatch| ==> s.proc.txBatch[i].origin != o
  {
    forall i | 0 <= i < |s.proc.txBatch| ensures s.proc.txBatch[i].origin != o { assert TxFrom(log, s.proc.txBatch[i]); }
  }

  lemma LandDone(log: Log, s: State, p: Part, o: nat)
    requires OffsetsOk(log, s) && CoverageOk(log, s) && SourcesOk(log, s) && !s.proc.pc.Enriching? && p in log && o < |log[p]|
    requires o < s.proc.position[p] || TransferDone(log, s, p, o)
    ensures TransferDone(log, LandBatches(s), p, o)
  {
    LandGrows(s);
    if log[p][o].TokenTransfer? {
      if Settled(log, s.store, s.hist, p, o) {
        SettledStays(log, s, LandBatches(s), p, o);
      } else {
        assert InHand(s.proc, Origin(p, o));
        NoTransaction(log, s, Origin(p, o));
        var i :| 0 <= i < |s.proc.transferBatch| && s.proc.transferBatch[i].origin == Origin(p, o);
        LandSettles(log, s, i);
      }
    }
  }

  lemma LandKeepsDone(log: Log, s: State, hw: Offsets)
    requires OffsetsOk(log, s) && CoverageOk(log, s) && SourcesOk(log, s) && !s.proc.pc.Enriching?
    requires ValidOffsets(log, s.hist.landed) && TransferKeysOk(log, s) && hw == Furthest(s.hist.landed, s.proc.position)
    ensures ValidOffsets(log, hw) && forall p, o: nat :: p in log && o < hw[p] ==> TransferDone(log, LandBatches(s), p, o)
  {
    forall p, o: nat | p in log && o < hw[p] ensures TransferDone(log, LandBatches(s), p, o) { LandDone(log, s, p, o); }
  }

  lemma LandKeepsBelow(log: Log, s: State)
    requires ShapeOk(log, s) && OrderOk(log, s) && SourcesOk(log, s) && LandedOk(log, s)
    requires forall k :: k in s.store.transfers ==> TransferBelow(log, s.hist.landed, s.store.transfers[k])
    ensures var t := LandBatches(s);
      forall k :: k in t.store.transfers ==> TransferBelow(log, t.hist.landed, t.store.transfers[k])
  {
    var t := LandBatches(s);
    forall k | k in t.store.transfers ensures TransferBelow(log, t.hist.landed, t.store.transfers[k]) { LandedBelow(log, s, k); }
  }

  lemma LandKeepsTransfers(log: Log, s: State)
    requires ReplayInv(log, s) && TransferKeysOk(log, s) && !s.proc.pc.Enriching?
    ensures ValidOffsets(log, LandBatches(s).hist.landed) && TransferKeysOk(log, LandBatches(s))
  {
    LandKeepsDone(log, s, LandBatches(s).hist.landed);
    LandKeepsBelow(log, s);
  }

  // ---- every step ----------------------------------------------------------------------------------------------------

  lemma TransfersFrame(log: Log, s: State, t: State)
    requires ValidOffsets(log, s.hist.landed) && TransferKeysOk(log, s)
    requires t.store.transfers == s.store.transfers && t.hist.landed == s.hist.landed
    requires GivenUp(s) <= GivenUp(t) && forall o :: o in GivenUp(t) && o !in GivenUp(s) ==> Unstamped(log, o)
    ensures TransferKeysOk(log, t)
  {
    forall p, o: nat | p in log && o < t.hist.landed[p] ensures TransferDone(log, t, p, o) {
      assert TransferDone(log, s, p, o);
      assert log[p][o].TokenTransfer? && TransferStored(log, s.store, log[p][o].transfer) ==>
        TransferStored(log, t.store, log[p][o].transfer);
    }
  }

  lemma LookupGivesUp(log: Log, s: State, raised: bool)
    requires Enabled(log, s, LookupReply(raised)) && PcOk(log, s.proc.pc)
    ensures var t := Apply(log, s, LookupReply(raised));
      GivenUp(s) <= GivenUp(t) && forall o :: o in GivenUp(t) && o !in GivenUp(s) ==> Unstamped(log, o)
  {
  }

  lemma CommitTransfers(log: Log, s: State, outcome: DbOutcome)
    requires ReplayInv(log, s) && TransferKeysOk(log, s) && Enabled(log, s, DbCommit(outcome))
    ensures var t := Apply(log, s, DbCommit(outcome)); ValidOffsets(log, t.hist.landed) && TransferKeysOk(log, t)
  {
    var t := Apply(log, s, DbCommit(outcome));
    if outcome.Lost? {
      TransfersFrame(log, s, t);
    } else {
      LandKeepsTransfers(log, s);
      TransfersFrame(log, LandBatches(s), t);
    }
  }

  lemma TransferKeysKept(log: Log, s: State, step: Step, t: State)
    requires ReplayInv(log, s) && TransferKeysOk(log, s)
    requires Enabled(log, s, step) && t == Apply(log, s, step) && Touches(s, step, t)
    ensures ValidOffsets(log, t.hist.landed) && TransferKeysOk(log, t)
  {
    if step.DbCommit? {
      CommitTransfers(log, s, step.outcome);
    } else {
      if step.LookupReply? { LookupGivesUp(log, s, step.raised); }
      TransfersFrame(log, s, t);
    }
  }

  lemma {:induction false} EveryRunKeepsTransferKeys(log: Log, steps: seq<Step>)
    requires Legal(log, Init(log), steps)
    ensures var t := Run(log, Init(log), steps); ReplayInv(log, t) && TransferKeysOk(log, t)
  {
    EveryRunKeepsReplayInv(log, steps);
    if steps != [] {
      var k := |steps| - 1;
      EveryRunKeepsTransferKeys(log, steps[..k]);
      var s := Run(log, Init(log), steps[..k]);
      Footprint(log, s, steps[k]);
      TransferKeysKept(log, s, steps[k], Apply(log, s, steps[k]));
    }
  }

  // ---- what one partition has for its own: exactly --------------------------------------------------------------------

  /** The row of a wanted transfer that comes with its own time. */
  function TransferRow(keep: TransferKey -> bool): Message -> Option<(TransferKey, Transfer)> {
    (m: Message) =>
      if m.TokenTransfer? && Stable(m.transfer.stamp) && keep(TransferKeyOf(StampedRow(m.transfer)))
      then Some((TransferKeyOf(StampedRow(m.transfer)), StampedRow(m.transfer)))
      else None
  }

  function StampedRow(b: TransferBody): Transfer
    requires Stable(b.stamp)
  {
    Transfer(b.hash, b.logIndex, b.stamp.seconds, b.token, b.from, b.to, b.value)
  }

  /** All deliveries of the transfer are in one partition and come with their own times. */
  ghost predicate TransferOwned(log: Log, p0: Part, hash: string, index: int) {
    forall p, o: nat ::
      p in log && o < |log[p]| && log[p][o].TokenTransfer? && log[p][o].transfer.hash == hash && log[p][o].transfer.logIndex == index ==>
        p == p0 && Stable(log[p][o].transfer.stamp)
  }

  ghost predicate OwnTransferKeys(log: Log, p0: Part, keep: TransferKey -> bool) {
    p0 in log && forall k :: keep(k) ==> TransferOwned(log, p0, k.hash, k.logIndex)
  }

  ghost predicate TransferFoldOk(log: Log, p0: Part, s: State, keep: TransferKey -> bool)
    requires p0 in log && ValidOffsets(log, s.hist.landed)
  {
    Kept(s.store.transfers, keep) == InsertIgnore(map[], RowsOf(log[p0], 0, s.hist.landed[p0], TransferRow(keep)))
  }

  /** A row of the batch is wanted only as the row of its message in `p0`. */
  lemma WantedTransfer(log: Log, p0: Part, e: Buffered<Transfer>, keep: TransferKey -> bool)
    requires OwnTransferKeys(log, p0, keep) && TransferFrom(log, e)
    ensures keep(TransferKeyOf(e.item)) ==> e.origin.part == p0
    ensures e.origin.part == p0 ==>
      TransferRow(keep)(log[p0][e.origin.offset]) == if keep(TransferKeyOf(e.item)) then Some((TransferKeyOf(e.item), e.item)) else None
  {
    var m := log[e.origin.part][e.origin.offset];
    if keep(TransferKeyOf(e.item)) { assert TransferOwned(log, p0, m.transfer.hash, m.transfer.logIndex); }
  }

  /** The last buffered transfer, when it is of `p0`, is the last one of the stretch. */
  lemma LastOfTransfers(p0: Part, batch: seq<Buffered<Transfer>>, msgs: seq<Message>, from: nat, to: nat, missed: set<Origin>)
    requires from < to <= |msgs| && msgs[to - 1].TokenTransfer? && Origin(p0, to - 1) !in missed
    requires OffsetsOf(batch, p0) == TransferOffsets(msgs, p0, from, to, missed)
    ensures batch != []
    ensures var e := batch[|batch| - 1]; e.origin.part == p0 ==>
      e.origin == Origin(p0, to - 1) && OffsetsOf(batch[..|batch| - 1], p0) == TransferOffsets(msgs, p0, from, to - 1, missed)
  {
    var n := |batch| - 1;
    var rest := TransferOffsets(msgs, p0, from, to - 1, missed);
    assert (rest + [to - 1])[..|rest|] == rest;
    if batch[n].origin.part == p0 {
      var before := OffsetsOf(batch[..n], p0);
      assert OffsetsOf(batch, p0) == before + [batch[n].origin.offset];
      assert (before + [batch[n].origin.offset])[..|before|] == before;
    }
  }

  lemma LastKept(batch: seq<Buffered<Transfer>>, keep: TransferKey -> bool)
    requires batch != []
    ensures var n := |batch| - 1; var e := batch[n].item;
      KeptRows(TransferValues(batch), keep) ==
      KeptRows(TransferValues(batch[..n]), keep) + if keep(TransferKeyOf(e)) then [(TransferKeyOf(e), e)] else []
  {
    var n := |batch| - 1;
    assert TransferValues(batch)[..n] == TransferValues(batch[..n]);
  }

  /** A message missed, or of another kind, makes no wanted row. */
  lemma NoRow(log: Log, p0: Part, o: nat, missed: set<Origin>, keep: TransferKey -> bool)
    requires p0 in log && o < |log[p0]| && forall x :: x in missed ==> Unstamped(log, x)
    requires !log[p0][o].TokenTransfer? || Origin(p0, o) in missed
    ensures TransferRow(keep)(log[p0][o]) == None
  {
  }

  lemma OfElsewhere(log: Log, p0: Part, batch: seq<Buffered<Transfer>>, keep: TransferKey -> bool)
    requires OwnTransferKeys(log, p0, keep) && batch != [] && TransferFrom(log, batch[|batch| - 1])
    requires batch[|batch| - 1].origin.part != p0
    ensures OffsetsOf(batch[..|batch| - 1], p0) == OffsetsOf(batch, p0)
    ensures KeptRows(TransferValues(batch), keep) == KeptRows(TransferValues(batch[..|batch| - 1]), keep)
  {
    WantedTransfer(log, p0, batch[|batch| - 1], keep);
    LastKept(batch, keep);
  }

  lemma OfStretch(log: Log, p0: Part, batch: seq<Buffered<Transfer>>, from: nat, to: nat, missed: set<Origin>, keep: TransferKey -> bool)
    requires OwnTransferKeys(log, p0, keep) && from < to <= |log[p0]|
    requires log[p0][to - 1].TokenTransfer? && Origin(p0, to - 1) !in missed
    requires batch != [] && TransferFrom(log, batch[|batch| - 1]) && batch[|batch| - 1].origin.part == p0
    requires OffsetsOf(batch, p0) == TransferOffsets(log[p0], p0, from, to, missed)
    ensures OffsetsOf(batch[..|batch| - 1], p0) == TransferOffsets(log[p0], p0, from, to - 1, missed)
    ensures KeptRows(TransferValues(batch[..|batch| - 1]), keep) == RowsOf(log[p0], from, to - 1, TransferRow(keep)) ==>
      KeptRows(TransferValues(batch), keep) == RowsOf(log[p0], from, to, TransferRow(keep))
  {
    LastOfTransfers(p0, batch, log[p0], from, to, missed);
    WantedTransfer(log, p0, batch[|batch| - 1], keep);
    LastKept(batch, keep);
  }

  ghost predicate AllFrom(log: Log, batch: seq<Buffered<Transfer>>) {
    forall i :: 0 <= i < |batch| ==> TransferFrom(log, batch[i])
  }

  lemma FrontFrom(log: Log, batch: seq<Buffered<Transfer>>)
    requires AllFrom(log, batch) && batch != []
    ensures AllFrom(log, batch[..|batch| - 1]) && TransferFrom(log, batch[|batch| - 1])
  {
  }

  ghost predicate OnlyUnstamped(log: Log, missed: set<Origin>) { forall o :: o in missed ==> Unstamped(log, o) }

  lemma NothingMore(p0: Part, batch: seq<Buffered<Transfer>>, msgs: seq<Message>, from: nat, to: nat, missed: set<Origin>)
    requires to <= from && to <= |msgs| && OffsetsOf(batch, p0) == TransferOffsets(msgs, p0, from, to, missed)
    requires batch != [] ==> batch[|batch| - 1].origin.part == p0
    ensures batch == []
  {
  }

  /** The wanted rows of the batch are those of a stretch of `p0`, whatever else it holds and whatever was missed. */
  lemma {:induction false} TransferBatchIsStretch(log: Log, p0: Part, batch: seq<Buffered<Transfer>>, from: nat, to: nat,
                                                  missed: set<Origin>, keep: TransferKey -> bool)
    requires OwnTransferKeys(log, p0, keep) && to <= |log[p0]| && OnlyUnstamped(log, missed) && AllFrom(log, batch)
    requires OffsetsOf(batch, p0) == TransferOffsets(log[p0], p0, from, to, missed)
    ensures KeptRows(TransferValues(batch), keep) == RowsOf(log[p0], from, to, TransferRow(keep))
    decreases |batch| + to
  {
    var n := |batch| - 1;
    if batch != [] { FrontFrom(log, batch); }
    if batch != [] && batch[n].origin.part != p0 {
      OfElsewhere(log, p0, batch, keep);
      TransferBatchIsStretch(log, p0, batch[..n], from, to, missed, keep);
    } else if to <= from {
      NothingMore(p0, batch, log[p0], from, to, missed);
    } else if log[p0][to - 1].TokenTransfer? && Origin(p0, to - 1) !in missed {
      LastOfTransfers(p0, batch, log[p0], from, to, missed);
      OfStretch(log, p0, batch, from, to, missed, keep);
      TransferBatchIsStretch(log, p0, batch[..n], from, to - 1, missed, keep);
    } else {
      NoRow(log, p0, to - 1, missed, keep);
      TransferBatchIsStretch(log, p0, batch, from, to - 1, missed, keep);
    }
  }

  lemma LandExtendsTransfers(log: Log, p0: Part, s: State, keep: TransferKey -> bool)
    requires OwnTransferKeys(log, p0, keep) && ReplayInv(log, s) && TransferKeysOk(log, s) && !s.proc.pc.Enriching?
    requires TransferFoldOk(log, p0, s, keep)
    ensures ValidOffsets(log, LandBatches(s).hist.landed) && TransferFoldOk(log, p0, LandBatches(s), keep)
  {
    var from, to := s.hist.flushed[p0], s.proc.position[p0];
    assert TransfersOk(log, s, p0);
    TransferBatchIsStretch(log, p0, s.proc.transferBatch, from, to, s.hist.missed, keep);
    KeptInsert(s.store.transfers, TransferValues(s.proc.transferBatch), keep);
    ReplayMessages(log[p0], from, s.hist.landed[p0], to, TransferRow(keep));
  }

  lemma TransferFoldKept(log: Log, p0: Part, s: State, step: Step, t: State, keep: TransferKey -> bool)
    requires OwnTransferKeys(log, p0, keep) && ReplayInv(log, s) && TransferKeysOk(log, s) && TransferFoldOk(log, p0, s, keep)
    requires Enabled(log, s, step) && t == Apply(log, s, step) && Touches(s, step, t)
    ensures ValidOffsets(log, t.hist.landed) && TransferFoldOk(log, p0, t, keep)
  {
    if step.DbCommit? { CommitTransferFold(log, p0, s, step.outcome, t, keep); }
  }

  lemma CommitTransferFold(log: Log, p0: Part, s: State, outcome: DbOutcome, t: State, keep: TransferKey -> bool)
    requires OwnTransferKeys(log, p0, keep) && ReplayInv(log, s) && TransferKeysOk(log, s) && TransferFoldOk(log, p0, s, keep)
    requires Enabled(log, s, DbCommit(outcome)) && t == Apply(log, s, DbCommit(outcome))
    ensures ValidOffsets(log, t.hist.landed) && TransferFoldOk(log, p0, t, keep)
  {
    LandExtendsTransfers(log, p0, s, keep);
    assert outcome.Lost? || (t.store == LandBatches(s).store && t.hist.landed == LandBatches(s).hist.landed);
  }

  lemma {:induction false} EveryRunKeepsTransferFold(log: Log, p0: Part, steps: seq<Step>, keep: TransferKey -> bool)
    requires OwnTransferKeys(log, p0, keep) && Legal(log, Init(log), steps)
    ensures var t := Run(log, Init(log), steps); ValidOffsets(log, t.hist.landed) && TransferFoldOk(log, p0, t, keep)
  {
    if steps != [] {
      var k := |steps| - 1;
      EveryRunKeepsTransferKeys(log, steps[..k]);
      EveryRunKeepsTransferFold(log, p0, steps[..k], keep);
      var s := Run(log, Init(log), steps[..k]);
      Footprint(log, s, steps[k]);
      TransferFoldKept(log, p0, s, steps[k], Apply(log, s, steps[k]), keep);
    }
  }
}
