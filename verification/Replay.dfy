/**
 The transactions table against the log: whatever fails, the table is what inserting a prefix of the
 log once, in order, would give.
 */
module Replay {
  import opened Wrappers
  import opened Messages
  import opened Tables
  import opened Protocol
  import opened StepFootprint
  import opened Safety

  predicate Accepted(m: Message) { m.Transaction? && !m.tx.stamp.Absent? }

  /** Where the accepted transactions of msgs[from..to] are. */
  function TxOffsets(msgs: seq<Message>, from: nat, to: nat): seq<nat>
    requires to <= |msgs|
  {
    if to <= from then []
    else TxOffsets(msgs, from, to - 1) + if Accepted(msgs[to - 1]) then [to - 1] else []
  }

  /** The offsets a batch holds for one partition, in buffer order. */
  function OffsetsOf<T>(batch: seq<Buffered<T>>, p: Part): seq<nat> {
    if batch == [] then []
    else
      var e := batch[|batch| - 1].origin;
      OffsetsOf(batch[..|batch| - 1], p) + if e.part == p then [e.offset] else []
  }

  /** The rows that messages make in msgs[from..to]. */
  function RowsOf<K, T>(msgs: seq<Message>, from: nat, to: nat, row: Message -> Option<(K, T)>): seq<(K, T)>
    requires to <= |msgs|
  {
    if to <= from then []
    else RowsOf(msgs, from, to - 1, row) + match row(msgs[to - 1]) case Some(r) => [r] case None => []
  }

  /** The row of a wanted transaction. */
  function TxRow(keep: TxKey -> bool): Message -> Option<(TxKey, Tx)> {
    (m: Message) => if Accepted(m) && keep(RowOf(m.tx).0) then Some(RowOf(m.tx)) else None
  }

  /** The rows of the wanted transactions in msgs[from..to], read with their own times. */
  function TxRows(msgs: seq<Message>, from: nat, to: nat, keep: TxKey -> bool): seq<(TxKey, Tx)>
    requires to <= |msgs|
  {
    RowsOf(msgs, from, to, TxRow(keep))
  }

  function RowOf(b: TxBody): (TxKey, Tx)
    requires !b.stamp.Absent?
  {
    var tx := DecodeTx(b, 0).value;
    (KeyOf(tx), tx)
  }

  ghost predicate AtMost(a: Offsets, b: Offsets) {
    a.Keys == b.Keys && forall p :: p in a ==> a[p] <= b[p]
  }

  /** The stretch that a buffer can hold, in each partition. */
  ghost predicate Ranged(log: Log, s: State) {
    ValidOffsets(log, s.proc.position) && ValidOffsets(log, s.hist.flushed) && AtMost(s.hist.flushed, s.proc.position)
  }

  ghost predicate StretchOk(log: Log, s: State, p: Part)
    requires Ranged(log, s) && p in log
  {
    OffsetsOf(s.proc.txBatch, p) == TxOffsets(log[p], s.hist.flushed[p], s.proc.position[p])
  }

  /** The buffer is exactly what was read since the last completed flush or restart, in log order. */
  ghost predicate ShapeOk(log: Log, s: State) {
    && OffsetsOk(log, s)
    && Ranged(log, s)
    && forall p :: p in log ==> StretchOk(log, s, p)
  }

  /** Every offset that may be committed, and the start of the buffer, lie inside what has landed. */
  ghost predicate LandedOk(log: Log, s: State) {
    && ValidOffsets(log, s.hist.landed)
    && AtMost(s.hist.flushed, s.hist.landed)
    && AtMost(s.store.committed, s.hist.landed)
    && (forall r :: r in s.store.requested ==> AtMost(r, s.hist.landed))
    && (InFlight(s.proc.pc) ==> AtMost(s.proc.position, s.hist.landed))
  }

  /** What a poll does to the transactions: buffers the one it read, if it read one it accepts. */
  ghost predicate PollsTx(log: Log, s: State, part: Part, t: State)
    requires part in log && part in s.proc.position && s.proc.position[part] < |log[part]|
  {
    var o := s.proc.position[part];
    && t.proc.position == s.proc.position[part := o + 1] && t.hist == s.hist
    && (if Accepted(log[part][o])
        then |t.proc.txBatch| > 0 && t.proc.txBatch[|t.proc.txBatch| - 1].origin == Origin(part, o) &&
             t.proc.txBatch[..|t.proc.txBatch| - 1] == s.proc.txBatch
        else t.proc.txBatch == s.proc.txBatch)
  }

  lemma PollBatch(log: Log, s: State, part: Part, now: int)
    requires Enabled(log, s, PollMessage(part, now))
    ensures var b := Apply(log, s, PollMessage(part, now)).proc.txBatch; var o := s.proc.position[part];
      if Accepted(log[part][o]) then
        b == s.proc.txBatch + [Buffered(Origin(part, o), DecodeTx(log[part][o].tx, now).value)]
      else b == s.proc.txBatch
  {
  }

  lemma PollReads(log: Log, s: State, part: Part, now: int, t: State)
    requires Enabled(log, s, PollMessage(part, now)) && t == Apply(log, s, PollMessage(part, now))
    ensures PollsTx(log, s, part, t)
  {
    PollBatch(log, s, part, now);
  }

  lemma StretchGrows(log: Log, s: State, part: Part, t: State, p: Part)
    requires Ranged(log, s) && Ranged(log, t) && part in log && p in log && s.proc.position[part] < |log[part]|
    requires PollsTx(log, s, part, t) && StretchOk(log, s, p)
    ensures StretchOk(log, t, p)
  {
    OneMore(log[p], s.hist.flushed[p], s.proc.position[p], t.proc.position[p]);
  }

  lemma PollShapeKept(log: Log, s: State, part: Part, t: State)
    requires ShapeOk(log, s) && OffsetsOk(log, t) && part in log && s.proc.position[part] < |log[part]|
    requires PollsTx(log, s, part, t)
    ensures ShapeOk(log, t)
  {
    forall p | p in log ensures StretchOk(log, t, p) { StretchGrows(log, s, part, t, p); }
  }

  lemma OneMore(msgs: seq<Message>, from: nat, a: nat, b: nat)
    requires from <= a <= b <= |msgs| && b <= a + 1
    ensures TxOffsets(msgs, from, b) == TxOffsets(msgs, from, a) + if a < b && Accepted(msgs[a]) then [a] else []
  {
  }

  lemma EmptiedShape(log: Log, s: State, step: Step)
    requires ShapeOk(log, s) && Enabled(log, s, step) && (step.Crash? || step.ClearBatches?)
    ensures ShapeOk(log, Apply(log, s, step))
  {
    var t := Apply(log, s, step);
    assert t.proc.txBatch == [] && t.hist.flushed == t.proc.position;
  }

  lemma RequestShape(log: Log, s: State, raised: bool)
    requires ShapeOk(log, s) && Enabled(log, s, RequestOffsets(raised))
    ensures ShapeOk(log, Apply(log, s, RequestOffsets(raised)))
  {
  }

  lemma UntouchedShape(log: Log, s: State, step: Step, t: State)
    requires ShapeOk(log, s) && Touches(s, step, t)
    requires !(step.PollMessage? || step.Crash? || step.ClearBatches? || step.RequestOffsets?)
    requires step.OffsetLands? ==> t.store.committed in s.store.requested
    ensures ShapeOk(log, t)
  {
  }

  lemma ShapeKept(log: Log, s: State, step: Step, t: State)
    requires ShapeOk(log, s) && Enabled(log, s, step) && t == Apply(log, s, step) && Touches(s, step, t)
    ensures ShapeOk(log, t)
  {
    if step.PollMessage? {
      PollShape(log, s, step.part, step.now);
      PollReads(log, s, step.part, step.now, t);
      PollShapeKept(log, s, step.part, t);
    }
    else if step.Crash? || step.ClearBatches? { EmptiedShape(log, s, step); }
    else if step.RequestOffsets? { RequestShape(log, s, step.raised); }
    else {
      if step.OffsetLands? { LandingIsRequested(log, s, step); }
      UntouchedShape(log, s, step, t);
    }
  }

  lemma FurthestIsPast(a: Offsets, b: Offsets)
    requires a.Keys == b.Keys
    ensures AtMost(a, Furthest(a, b)) && AtMost(b, Furthest(a, b))
  {
  }

  /** Landing up to the position keeps everything committable inside what has landed. */
  lemma LandsFurther(log: Log, s: State, t: State)
    requires Ranged(log, s) && LandedOk(log, s)
    requires t.hist.landed == Furthest(s.hist.landed, s.proc.position) && t.hist.flushed == s.hist.flushed
    requires t.store.committed == s.store.committed && t.store.requested == s.store.requested
    requires t.proc.position == s.proc.position
    ensures LandedOk(log, t)
  {
    FurthestIsPast(s.hist.landed, s.proc.position);
    forall r | r in t.store.requested ensures AtMost(r, t.hist.landed) { assert AtMost(r, s.hist.landed); }
  }

  lemma CommitLanded(log: Log, s: State, outcome: DbOutcome)
    requires ShapeOk(log, s) && LandedOk(log, s) && Enabled(log, s, DbCommit(outcome))
    ensures LandedOk(log, Apply(log, s, DbCommit(outcome)))
  {
    if !outcome.Lost? { LandsFurther(log, s, Apply(log, s, DbCommit(outcome))); }
  }

  lemma RequestLanded(log: Log, s: State, raised: bool)
    requires ShapeOk(log, s) && LandedOk(log, s) && Enabled(log, s, RequestOffsets(raised))
    ensures LandedOk(log, Apply(log, s, RequestOffsets(raised)))
  {
  }

  lemma EmptiedLanded(log: Log, s: State, step: Step)
    requires ShapeOk(log, s) && LandedOk(log, s) && Enabled(log, s, step) && (step.ClearBatches? || step.Crash?)
    ensures LandedOk(log, Apply(log, s, step))
  {
  }

  lemma PublishLanded(log: Log, s: State, step: Step)
    requires Enabled(log, s, step) && IsPublish(step)
    ensures InFlight(Apply(log, s, step).proc.pc) ==> InFlight(s.proc.pc)
  {
  }

  lemma UntouchedLanded(log: Log, s: State, step: Step, t: State)
    requires LandedOk(log, s) && Touches(s, step, t)
    requires !(step.DbCommit? || step.RequestOffsets? || step.ClearBatches? || step.Crash? || step.PollMessage?)
    requires step.OffsetLands? ==> t.store.committed in s.store.requested
    requires InFlight(t.proc.pc) ==> InFlight(s.proc.pc)
    ensures LandedOk(log, t)
  {
  }

  lemma PollLanded(log: Log, s: State, part: Part, now: int)
    requires LandedOk(log, s) && Enabled(log, s, PollMessage(part, now))
    ensures LandedOk(log, Apply(log, s, PollMessage(part, now)))
  {
    PollFootprint(log, s, part, now);
    BatchStepsOutside(log, s, PollMessage(part, now));
  }

  lemma LandedKept(log: Log, s: State, step: Step, t: State)
    requires ShapeOk(log, s) && LandedOk(log, s)
    requires Enabled(log, s, step) && t == Apply(log, s, step) && Touches(s, step, t)
    ensures LandedOk(log, t)
  {
    if step.DbCommit? { CommitLanded(log, s, step.outcome); }
    else if step.RequestOffsets? { RequestLanded(log, s, step.raised); }
    else if step.ClearBatches? || step.Crash? { EmptiedLanded(log, s, step); }
    else if step.PollMessage? { PollLanded(log, s, step.part, step.now); }
    else {
      if IsPublish(step) { PublishLanded(log, s, step); }
      if step.OffsetLands? { LandingIsRequested(log, s, step); }
      UntouchedLanded(log, s, step, t);
    }
  }

  // ---- the buffered transfers, in log order -----------------------------------------------------------

  /** Where the transfers of partition `p` in msgs[from..to] are, but for the missed ones. */
  function TransferOffsets(msgs: seq<Message>, p: Part, from: nat, to: nat, missed: set<Origin>): seq<nat>
    requires to <= |msgs|
  {
    if to <= from then []
    else
      TransferOffsets(msgs, p, from, to - 1, missed) +
      if msgs[to - 1].TokenTransfer? && Origin(p, to - 1) !in missed then [to - 1] else []
  }

  /** Where the buffered transfers of `p` must end: before the one being looked up, if it is of `p`. */
  function TransferEnd(s: State, p: Part): nat
    requires p in s.proc.position
  {
    if s.proc.pc.Enriching? && s.proc.pc.origin.part == p then s.proc.pc.origin.offset else s.proc.position[p]
  }

  /** The transfer in hand is the last message read of its partition. */
  ghost predicate InHandOk(log: Log, s: State)
    requires Ranged(log, s)
  {
    s.proc.pc.Enriching? ==>
      var o := s.proc.pc.origin;
      && o.part in log && o.offset + 1 == s.proc.position[o.part] && log[o.part][o.offset].TokenTransfer?
      && s.hist.flushed[o.part] <= o.offset
  }

  /** The missed transfers were skipped or dropped, and lie before the position and the one in hand. */
  ghost predicate MissedOk(log: Log, s: State)
    requires Ranged(log, s)
  {
    && s.hist.missed <= s.hist.skipped + s.hist.dropped
    && (forall o :: o in s.hist.missed ==> o.part in log && o.offset < TransferEnd(s, o.part))
  }

  /** The buffered transfers of `p` are exactly those read since the last completed flush or restart, less the missed ones. */
  ghost predicate TransfersOk(log: Log, s: State, p: Part)
    requires Ranged(log, s) && p in log
  {
    var end := TransferEnd(s, p);
    end <= |log[p]| &&
    OffsetsOf(s.proc.transferBatch, p) == TransferOffsets(log[p], p, s.hist.flushed[p], end, s.hist.missed)
  }

  ghost predicate OrderOk(log: Log, s: State)
    requires Ranged(log, s)
  {
    InHandOk(log, s) && MissedOk(log, s) && forall p :: p in log ==> TransfersOk(log, s, p)
  }

  /** `o` is the offset of a transfer in the stretch that was not missed. */
  predicate Wanted(msgs: seq<Message>, p: Part, from: nat, to: nat, missed: set<Origin>, o: nat) {
    from <= o < to <= |msgs| && msgs[o].TokenTransfer? && Origin(p, o) !in missed
  }

  lemma {:induction false} TransferOffsetsAre(msgs: seq<Message>, p: Part, from: nat, to: nat, missed: set<Origin>, o: nat)
    requires to <= |msgs|
    ensures o in TransferOffsets(msgs, p, from, to, missed) <==> Wanted(msgs, p, from, to, missed, o)
  {
    if to > from { TransferOffsetsAre(msgs, p, from, to - 1, missed, o); }
  }

  lemma {:induction false} TransferOffsetsClimb(msgs: seq<Message>, p: Part, from: nat, to: nat, missed: set<Origin>)
    requires to <= |msgs|
    ensures var offsets := TransferOffsets(msgs, p, from, to, missed);
      forall i, j :: 0 <= i < j < |offsets| ==> offsets[i] < offsets[j]
  {
    if to > from {
      var offsets, before := TransferOffsets(msgs, p, from, to, missed), TransferOffsets(msgs, p, from, to - 1, missed);
      TransferOffsetsClimb(msgs, p, from, to - 1, missed);
      forall i, j | 0 <= i < j < |offsets| ensures offsets[i] < offsets[j] {
        assert offsets[i] == before[i];
        TransferOffsetsAre(msgs, p, from, to - 1, missed, before[i]);
        if j < |before| { assert offsets[j] == before[j]; }
      }
    }
  }

  /** Each wanted offset once, in order, and no other. */
  lemma TransferOffsetsMeaning(msgs: seq<Message>, p: Part, from: nat, to: nat, missed: set<Origin>)
    requires to <= |msgs|
    ensures var offsets := TransferOffsets(msgs, p, from, to, missed);
      && (forall i, j :: 0 <= i < j < |offsets| ==> offsets[i] < offsets[j])
      && (forall o: nat :: o in offsets <==> Wanted(msgs, p, from, to, missed, o))
  {
    forall o: nat ensures o in TransferOffsets(msgs, p, from, to, missed) <==> Wanted(msgs, p, from, to, missed, o) {
      TransferOffsetsAre(msgs, p, from, to, missed, o);
    }
    TransferOffsetsClimb(msgs, p, from, to, missed);
  }

  lemma {:induction false} MissingLater(
      msgs: seq<Message>, p: Part, from: nat, to: nat, missed: set<Origin>, more: set<Origin>)
    requires to <= |msgs| && forall o: nat :: o < to ==> (Origin(p, o) in missed <==> Origin(p, o) in more)
    ensures TransferOffsets(msgs, p, from, to, missed) == TransferOffsets(msgs, p, from, to, more)
  {
    if to > from { MissingLater(msgs, p, from, to - 1, missed, more); }
  }

  /** What a poll does to the transfers: buffers the one it read, takes it in hand, or neither when it read none. */
  ghost predicate PollsTransfer(log: Log, s: State, part: Part, t: State)
    requires part in log && part in s.proc.position && s.proc.position[part] < |log[part]|
  {
    var o := s.proc.position[part];
    var m := log[part][o];
    && t.proc.position == s.proc.position[part := o + 1] && t.hist == s.hist
    && (t.proc.pc.Enriching? ==> t.proc.pc.origin == Origin(part, o) && m.TokenTransfer?)
    && (if m.TokenTransfer? && !t.proc.pc.Enriching?
        then |t.proc.transferBatch| > 0 && t.proc.transferBatch[|t.proc.transferBatch| - 1].origin == Origin(part, o) &&
             t.proc.transferBatch[..|t.proc.transferBatch| - 1] == s.proc.transferBatch
        else t.proc.transferBatch == s.proc.transferBatch)
  }

  lemma PollTransfers(log: Log, s: State, part: Part, now: int, t: State)
    requires Enabled(log, s, PollMessage(part, now)) && t == Apply(log, s, PollMessage(part, now))
    ensures PollsTransfer(log, s, part, t)
  {
    if log[part][s.proc.position[part]].TokenTransfer? { BufferTransferEnds(log, s, part, now, t); }
  }

  lemma BufferTransferEnds(log: Log, s: State, part: Part, now: int, t: State)
    requires Enabled(log, s, PollMessage(part, now)) && t == Apply(log, s, PollMessage(part, now))
    requires log[part][s.proc.position[part]].TokenTransfer?
    ensures PollsTransfer(log, s, part, t)
  {
    var o := s.proc.position[part];
    var m := DecodeTransfer(log[part][o].transfer, now);
    if m.timestamp.Some? {
      var e := Buffered(Origin(part, o), Stamped(m, m.timestamp.value));
      assert t.proc.transferBatch == s.proc.transferBatch + [e];
    }
  }

  lemma PollOffsets(log: Log, s: State, part: Part, t: State, p: Part)
    requires part in log && part in s.proc.position && s.proc.position[part] < |log[part]| && PollsTransfer(log, s, part, t)
    ensures var o := s.proc.position[part]; var a := OffsetsOf(s.proc.transferBatch, p);
      OffsetsOf(t.proc.transferBatch, p)
      == if p == part && log[part][o].TokenTransfer? && !t.proc.pc.Enriching? then a + [o] else a
  {
    var n := |t.proc.transferBatch| - 1;
    if t.proc.transferBatch != s.proc.transferBatch {
      assert t.proc.transferBatch == t.proc.transferBatch[..n] + [t.proc.transferBatch[n]];
    }
  }

  lemma PollOrderAt(log: Log, s: State, part: Part, t: State, p: Part)
    requires Ranged(log, s) && Ranged(log, t) && !s.proc.pc.Enriching? && part in log && p in log
    requires s.proc.position[part] < |log[part]| && PollsTransfer(log, s, part, t)
    requires MissedOk(log, s) && TransfersOk(log, s, p)
    ensures TransfersOk(log, t, p)
  {
    PollOffsets(log, s, part, t, p);
    var from, o := s.hist.flushed[p], s.proc.position[p];
    if p == part {
      assert Origin(p, o) !in s.hist.missed;
      assert TransferOffsets(log[p], p, from, o + 1, s.hist.missed)
          == TransferOffsets(log[p], p, from, o, s.hist.missed) + if log[p][o].TokenTransfer? then [o] else [];
    }
  }

  lemma PollMissed(log: Log, s: State, part: Part, t: State)
    requires Ranged(log, s) && Ranged(log, t) && !s.proc.pc.Enriching? && part in log
    requires s.proc.position[part] < |log[part]| && PollsTransfer(log, s, part, t) && MissedOk(log, s)
    ensures InHandOk(log, t) && MissedOk(log, t)
  {
  }

  lemma PollOrder(log: Log, s: State, part: Part, t: State)
    requires Ranged(log, s) && OrderOk(log, s) && Ranged(log, t) && !s.proc.pc.Enriching? && part in log
    requires s.proc.position[part] < |log[part]| && PollsTransfer(log, s, part, t)
    ensures OrderOk(log, t)
  {
    PollMissed(log, s, part, t);
    forall p | p in log ensures TransfersOk(log, t, p) { PollOrderAt(log, s, part, t, p); }
  }

  /** What a lookup does to them: it goes on, buffers the transfer in hand, or gives it up. */
  ghost predicate LooksUp(s: State, t: State)
    requires s.proc.pc.Enriching?
  {
    var o := s.proc.pc.origin;
    && t.proc.position == s.proc.position && t.hist.flushed == s.hist.flushed
    && s.hist.skipped <= t.hist.skipped && s.hist.dropped <= t.hist.dropped
    && (if t.proc.pc.Enriching?
        then t.proc.pc.origin == o && t.proc.transferBatch == s.proc.transferBatch && t.hist.missed == s.hist.missed
        else if t.proc.transferBatch == s.proc.transferBatch
        then t.hist.missed == s.hist.missed + {o} && (o in t.hist.skipped || o in t.hist.dropped)
        else
          && t.hist.missed == s.hist.missed
          && |t.proc.transferBatch| > 0 && t.proc.transferBatch[|t.proc.transferBatch| - 1].origin == o
          && t.proc.transferBatch[..|t.proc.transferBatch| - 1] == s.proc.transferBatch)
  }

  lemma LookupTransfers(log: Log, s: State, raised: bool, t: State)
    requires Enabled(log, s, LookupReply(raised)) && t == Apply(log, s, LookupReply(raised))
    ensures LooksUp(s, t)
  {
    if !raised && s.proc.pc.model.block in s.store.cache {
      var e := Buffered(s.proc.pc.origin, Stamped(s.proc.pc.model, s.store.cache[s.proc.pc.model.block]));
      assert t.proc.transferBatch == s.proc.transferBatch + [e];
    }
  }

  lemma LookupOffsets(s: State, t: State, p: Part)
    requires s.proc.pc.Enriching? && LooksUp(s, t)
    ensures var o := s.proc.pc.origin; var a := OffsetsOf(s.proc.transferBatch, p);
      OffsetsOf(t.proc.transferBatch, p)
      == if p == o.part && t.proc.transferBatch != s.proc.transferBatch then a + [o.offset] else a
  {
    var n := |t.proc.transferBatch| - 1;
    if t.proc.transferBatch != s.proc.transferBatch {
      assert t.proc.transferBatch == t.proc.transferBatch[..n] + [t.proc.transferBatch[n]];
    }
  }

  lemma LookupOrderAt(log: Log, s: State, t: State, p: Part)
    requires Ranged(log, s) && Ranged(log, t) && s.proc.pc.Enriching? && LooksUp(s, t) && p in log
    requires InHandOk(log, s) && MissedOk(log, s) && TransfersOk(log, s, p)
    ensures TransfersOk(log, t, p)
  {
    LookupOffsets(s, t, p);
    var from, end := s.hist.flushed[p], TransferEnd(s, p);
    MissingLater(log[p], p, from, end, s.hist.missed, t.hist.missed);
    if p == s.proc.pc.origin.part && !t.proc.pc.Enriching? {
      assert TransferEnd(t, p) == end + 1;
      assert TransferOffsets(log[p], p, from, end + 1, t.hist.missed)
          == TransferOffsets(log[p], p, from, end, t.hist.missed) + if Origin(p, end) !in t.hist.missed then [end] else [];
    }
  }

  lemma LookupMissed(log: Log, s: State, t: State)
    requires Ranged(log, s) && Ranged(log, t) && s.proc.pc.Enriching? && LooksUp(s, t)
    requires InHandOk(log, s) && MissedOk(log, s)
    ensures InHandOk(log, t) && MissedOk(log, t)
  {
  }

  lemma LookupOrder(log: Log, s: State, t: State)
    requires Ranged(log, s) && OrderOk(log, s) && Ranged(log, t) && s.proc.pc.Enriching? && LooksUp(s, t)
    ensures OrderOk(log, t)
  {
    LookupMissed(log, s, t);
    forall p | p in log ensures TransfersOk(log, t, p) { LookupOrderAt(log, s, t, p); }
  }

  lemma EmptiedOrder(log: Log, t: State)
    requires Ranged(log, t) && t.hist.flushed == t.proc.position && t.proc.transferBatch == [] && t.hist.missed == {}
    requires !t.proc.pc.Enriching?
    ensures OrderOk(log, t)
  {
  }

  lemma UntouchedOrder(log: Log, s: State, step: Step, t: State)
    requires Ranged(log, s) && OrderOk(log, s) && Touches(s, step, t) && Ranged(log, t)
    requires !(step.PollMessage? || step.LookupReply? || step.Crash? || step.ClearBatches?)
    requires s.proc.pc.Enriching? ==> t.proc.pc == s.proc.pc
    ensures OrderOk(log, t)
  {
    assert t.proc.pc.Enriching? ==> t.proc.pc == s.proc.pc;
    assert forall p :: p in log ==> TransferEnd(t, p) == TransferEnd(s, p);
    forall p | p in log ensures TransfersOk(log, t, p) { assert TransfersOk(log, s, p); }
  }

  lemma OrderKept(log: Log, s: State, step: Step, t: State)
    requires ShapeOk(log, s) && OrderOk(log, s)
    requires Enabled(log, s, step) && t == Apply(log, s, step) && Touches(s, step, t) && ShapeOk(log, t)
    ensures OrderOk(log, t)
  {
    if step.PollMessage? {
      PollTransfers(log, s, step.part, step.now, t);
      PollOrder(log, s, step.part, t);
    } else if step.LookupReply? {
      LookupTransfers(log, s, step.raised, t);
      LookupOrder(log, s, t);
    } else if step.Crash? || step.ClearBatches? {
      EmptiedOrder(log, t);
    } else {
      if s.proc.pc.Enriching? { EnrichingStays(log, s, step); }
      UntouchedOrder(log, s, step, t);
    }
  }

  // ---- every partition: by key ------------------------------------------------------------------------

  /** The offset `o` of partition `p` lies below `hw`. */
  ghost predicate Below(hw: Offsets, o: Origin) {
    o.part in hw && o.offset < hw[o.part]
  }

  ghost predicate KeysOk(log: Log, s: State)
    requires ValidOffsets(log, s.hist.landed)
  {
    && (forall p, o: nat :: p in log && o < s.hist.landed[p] && Accepted(log[p][o]) ==> TxStored(s.store, log[p][o].tx))
    && (forall k :: k in s.store.txs ==> RowBelow(log, s.hist.landed, s.store.txs[k]))
  }

  lemma {:induction false} TxOffsetsMeaning(msgs: seq<Message>, from: nat, to: nat)
    requires to <= |msgs|
    ensures forall o :: o in TxOffsets(msgs, from, to) <==> from <= o < to && Accepted(msgs[o])
  {
    if from < to { TxOffsetsMeaning(msgs, from, to - 1); }
  }

  lemma {:induction false} OffsetsOfMeaning<T>(batch: seq<Buffered<T>>, p: Part)
    ensures forall o: nat :: o in OffsetsOf(batch, p) <==> exists i :: 0 <= i < |batch| && batch[i].origin == Origin(p, o)
  {
    if batch != [] {
      var k := |batch| - 1;
      OffsetsOfMeaning(batch[..k], p);
      forall o: nat | exists i :: 0 <= i < |batch| && batch[i].origin == Origin(p, o) ensures o in OffsetsOf(batch, p) {
        var i :| 0 <= i < |batch| && batch[i].origin == Origin(p, o);
        if i < k { assert batch[..k][i].origin == Origin(p, o); }
      }
      forall o: nat | o in OffsetsOf(batch, p) ensures exists i :: 0 <= i < |batch| && batch[i].origin == Origin(p, o) {
        if o in OffsetsOf(batch[..k], p) {
          var i :| 0 <= i < k && batch[..k][i].origin == Origin(p, o);
          assert batch[i].origin == Origin(p, o);
        } else {
          assert batch[k].origin == Origin(p, o);
        }
      }
    }
  }

  /** A buffered transaction lies between the last flush and the position. */
  lemma BufferedBelowPosition(log: Log, s: State, i: nat)
    requires ShapeOk(log, s) && SourcesOk(log, s) && i < |s.proc.txBatch|
    ensures Below(s.proc.position, s.proc.txBatch[i].origin)
  {
    var o := s.proc.txBatch[i].origin;
    assert TxFrom(log, s.proc.txBatch[i]);
    OffsetsOfMeaning(s.proc.txBatch, o.part);
    TxOffsetsMeaning(log[o.part], s.hist.flushed[o.part], s.proc.position[o.part]);
    assert o.offset in OffsetsOf(s.proc.txBatch, o.part) by { assert s.proc.txBatch[i].origin == Origin(o.part, o.offset); }
  }

  lemma LandStoresBelow(log: Log, s: State, p: Part, o: nat)
    requires ShapeOk(log, s) && LandedOk(log, s) && SourcesOk(log, s) && KeysOk(log, s)
    requires p in log && o < s.proc.position[p] && Accepted(log[p][o])
    ensures TxStored(LandBatches(s).store, log[p][o].tx)
  {
    LandGrows(s);
    if o < s.hist.flushed[p] {
      assert TxStored(s.store, log[p][o].tx);
      var tx :| Reads(log[p][o].tx, tx) && KeyOf(tx) in s.store.txs;
      assert KeyOf(tx) in LandBatches(s).store.txs;
    } else {
      TxOffsetsMeaning(log[p], s.hist.flushed[p], s.proc.position[p]);
      OffsetsOfMeaning(s.proc.txBatch, p);
      var i :| 0 <= i < |s.proc.txBatch| && s.proc.txBatch[i].origin == Origin(p, o);
      assert TxFrom(log, s.proc.txBatch[i]);
      assert KeyOf(s.proc.txBatch[i].item) in LandBatches(s).store.txs;
    }
  }

  lemma LandKeepsStored(log: Log, s: State, p: Part, o: nat)
    requires ShapeOk(log, s) && LandedOk(log, s) && SourcesOk(log, s) && KeysOk(log, s)
    requires ValidOffsets(log, LandBatches(s).hist.landed)
    requires p in log && o < LandBatches(s).hist.landed[p] && Accepted(log[p][o])
    ensures TxStored(LandBatches(s).store, log[p][o].tx)
  {
    if o < s.hist.landed[p] {
      LandGrows(s);
      var tx :| Reads(log[p][o].tx, tx) && KeyOf(tx) in s.store.txs;
      assert KeyOf(tx) in LandBatches(s).store.txs;
    } else {
      LandStoresBelow(log, s, p, o);
    }
  }

  ghost predicate RowBelow(log: Log, hw: Offsets, row: Tx) {
    exists o: Origin :: Below(hw, o) && TxFrom(log, Buffered(o, row))
  }

  lemma RowBelowLater(log: Log, a: Offsets, b: Offsets, row: Tx)
    requires RowBelow(log, a, row) && AtMost(a, b)
    ensures RowBelow(log, b, row)
  {
    var o: Origin :| Below(a, o) && TxFrom(log, Buffered(o, row));
    assert Below(b, o);
  }

  lemma BufferedRowBelow(log: Log, s: State, i: nat)
    requires ShapeOk(log, s) && SourcesOk(log, s) && i < |s.proc.txBatch|
    ensures RowBelow(log, s.proc.position, s.proc.txBatch[i].item)
  {
    BufferedBelowPosition(log, s, i);
    var e := s.proc.txBatch[i];
    assert TxFrom(log, e) && e == Buffered(e.origin, e.item);
  }

  /** The rows a flush leaves: an old one, or one of the batch. */
  lemma LandedRow(s: State, k: TxKey)
    requires k in LandBatches(s).store.txs
    ensures var row := LandBatches(s).store.txs[k];
      (k in s.store.txs && row == s.store.txs[k]) || exists i :: 0 <= i < |s.proc.txBatch| && s.proc.txBatch[i].item == row
  {
    var xs := TxValues(s.proc.txBatch);
    InsertIgnoreMeaning(s.store.txs, xs);
    if k !in s.store.txs {
      var i :| 0 <= i < |xs| && xs[i] == (k, LandBatches(s).store.txs[k]);
      assert s.proc.txBatch[i].item == LandBatches(s).store.txs[k];
    }
  }

  lemma RowStaysBelow(log: Log, s: State, a: Offsets, row: Tx)
    requires ShapeOk(log, s) && LandedOk(log, s) && RowBelow(log, a, row) && (a == s.hist.landed || a == s.proc.position)
    ensures RowBelow(log, LandBatches(s).hist.landed, row)
  {
    RowBelowLater(log, a, LandBatches(s).hist.landed, row);
  }

  lemma LandKeepsOrigins(log: Log, s: State, k: TxKey)
    requires ShapeOk(log, s) && LandedOk(log, s) && SourcesOk(log, s)
    requires k in s.store.txs ==> RowBelow(log, s.hist.landed, s.store.txs[k])
    requires k in LandBatches(s).store.txs
    ensures RowBelow(log, LandBatches(s).hist.landed, LandBatches(s).store.txs[k])
  {
    var row := LandBatches(s).store.txs[k];
    LandedRow(s, k);
    if k in s.store.txs && row == s.store.txs[k] {
      RowStaysBelow(log, s, s.hist.landed, row);
    } else {
      var i :| 0 <= i < |s.proc.txBatch| && s.proc.txBatch[i].item == row;
      BufferedRowBelow(log, s, i);
      RowStaysBelow(log, s, s.proc.position, row);
    }
  }

  lemma LandKeepsKeys(log: Log, s: State)
    requires ShapeOk(log, s) && LandedOk(log, s) && SourcesOk(log, s) && KeysOk(log, s)
    ensures ValidOffsets(log, LandBatches(s).hist.landed) && KeysOk(log, LandBatches(s))
  {
    var t := LandBatches(s);
    forall p, o: nat | p in log && o < t.hist.landed[p] && Accepted(log[p][o]) ensures TxStored(t.store, log[p][o].tx) {
      LandKeepsStored(log, s, p, o);
    }
    forall k | k in t.store.txs ensures RowBelow(log, t.hist.landed, t.store.txs[k]) {
      assert k in s.store.txs ==> RowBelow(log, s.hist.landed, s.store.txs[k]);
      LandKeepsOrigins(log, s, k);
    }
  }

  lemma CommitKeys(log: Log, s: State, outcome: DbOutcome)
    requires ShapeOk(log, s) && LandedOk(log, s) && SourcesOk(log, s) && KeysOk(log, s) && Enabled(log, s, DbCommit(outcome))
    ensures var t := Apply(log, s, DbCommit(outcome)); ValidOffsets(log, t.hist.landed) && KeysOk(log, t)
  {
    var t := Apply(log, s, DbCommit(outcome));
    if outcome.Lost? {
      KeysFrame(log, s, t);
    } else {
      LandKeepsKeys(log, s);
      KeysFrame(log, LandBatches(s), t);
    }
  }

  lemma KeysKept(log: Log, s: State, step: Step, t: State)
    requires ShapeOk(log, s) && LandedOk(log, s) && SourcesOk(log, s) && KeysOk(log, s)
    requires Enabled(log, s, step) && t == Apply(log, s, step) && Touches(s, step, t)
    ensures ValidOffsets(log, t.hist.landed) && KeysOk(log, t)
  {
    if step.DbCommit? { CommitKeys(log, s, step.outcome); }
    else { KeysFrame(log, s, t); }
  }

  lemma KeysFrame(log: Log, s: State, t: State)
    requires ValidOffsets(log, s.hist.landed) && KeysOk(log, s)
    requires t.store.txs == s.store.txs && t.hist.landed == s.hist.landed
    ensures KeysOk(log, t)
  {
    forall p, o: nat | p in log && o < t.hist.landed[p] && Accepted(log[p][o]) ensures TxStored(t.store, log[p][o].tx) {
      var tx :| Reads(log[p][o].tx, tx) && KeyOf(tx) in s.store.txs;
      assert KeyOf(tx) in t.store.txs;
    }
  }

  // ---- what one partition has for its own: exactly --------------------------------------------------------------------

  /** All deliveries of the transaction are in one partition, and none of them leaves its time to the clock. */
  ghost predicate HashOwned(log: Log, p0: Part, hash: string) {
    forall p, o: nat :: p in log && o < |log[p]| && Accepted(log[p][o]) && log[p][o].tx.hash == hash ==>
      p == p0 && Stable(log[p][o].tx.stamp)
  }

  /** No delivery of the transaction leaves its time to the clock. */
  ghost predicate HashStable(log: Log, hash: string) {
    forall p, o: nat :: p in log && o < |log[p]| && Accepted(log[p][o]) && log[p][o].tx.hash == hash ==>
      Stable(log[p][o].tx.stamp)
  }

  /** The wanted keys are of transactions that partition `p0` has for its own. */
  ghost predicate OwnKeys(log: Log, p0: Part, keep: TxKey -> bool) {
    p0 in log && forall k :: keep(k) ==> HashOwned(log, p0, k.hash)
  }

  ghost predicate FoldOk(log: Log, p0: Part, s: State, keep: TxKey -> bool)
    requires p0 in log && ValidOffsets(log, s.hist.landed)
  {
    Kept(s.store.txs, keep) == InsertIgnore(map[], TxRows(log[p0], 0, s.hist.landed[p0], keep))
  }

  lemma {:induction false} RowsSplit<K, T>(msgs: seq<Message>, from: nat, mid: nat, to: nat, row: Message -> Option<(K, T)>)
    requires from <= mid <= to <= |msgs|
    ensures RowsOf(msgs, from, to, row) == RowsOf(msgs, from, mid, row) + RowsOf(msgs, mid, to, row)
  {
    if mid < to { RowsSplit(msgs, from, mid, to - 1, row); }
  }

  /** A row of the batch is wanted only as the row of its message in `p0`. */
  lemma WantedRow(log: Log, p0: Part, e: Buffered<Tx>, keep: TxKey -> bool)
    requires OwnKeys(log, p0, keep) && TxFrom(log, e)
    ensures keep(KeyOf(e.item)) ==> e.origin.part == p0
    ensures e.origin.part == p0 ==>
      var row := RowOf(log[p0][e.origin.offset].tx);
      (keep(KeyOf(e.item)) <==> keep(row.0)) && (keep(row.0) ==> (KeyOf(e.item), e.item) == row)
  {
    var m := log[e.origin.part][e.origin.offset];
    assert Accepted(m) && m.tx.hash == e.item.hash;
    if keep(KeyOf(e.item)) { assert HashOwned(log, p0, e.item.hash); }
    if keep(RowOf(m.tx).0) { assert HashOwned(log, p0, m.tx.hash); }
  }

  /** The last buffered transaction, when it is of `p0`, is the last accepted one of the stretch. */
  lemma LastOfBatch(p0: Part, batch: seq<Buffered<Tx>>, msgs: seq<Message>, from: nat, to: nat)
    requires from < to <= |msgs| && Accepted(msgs[to - 1]) && OffsetsOf(batch, p0) == TxOffsets(msgs, from, to)
    ensures batch != []
    ensures var e := batch[|batch| - 1]; e.origin.part == p0 ==>
      e.origin == Origin(p0, to - 1) && OffsetsOf(batch[..|batch| - 1], p0) == TxOffsets(msgs, from, to - 1)
  {
    var n := |batch| - 1;
    var rest := TxOffsets(msgs, from, to - 1);
    assert (rest + [to - 1])[..|rest|] == rest;
    if batch[n].origin.part == p0 {
      var before := OffsetsOf(batch[..n], p0);
      assert OffsetsOf(batch, p0) == before + [batch[n].origin.offset];
      assert (before + [batch[n].origin.offset])[..|before|] == before;
    }
  }

  /** The wanted rows of the batch are those of a stretch of `p0`, whatever else it holds. */
  lemma {:induction false} BatchIsStretch(log: Log, p0: Part, batch: seq<Buffered<Tx>>, from: nat, to: nat, keep: TxKey -> bool)
    requires OwnKeys(log, p0, keep) && to <= |log[p0]|
    requires (forall i :: 0 <= i < |batch| ==> TxFrom(log, batch[i])) && OffsetsOf(batch, p0) == TxOffsets(log[p0], from, to)
    ensures KeptRows(TxValues(batch), keep) == TxRows(log[p0], from, to, keep)
    decreases |batch| + to
  {
    var n := |batch| - 1;
    if batch != [] && batch[n].origin.part != p0 {
      WantedRow(log, p0, batch[n], keep);
      BatchIsStretch(log, p0, batch[..n], from, to, keep);
      assert TxValues(batch)[..n] == TxValues(batch[..n]);
    } else if from < to && Accepted(log[p0][to - 1]) {
      LastOfBatch(p0, batch, log[p0], from, to);
      WantedRow(log, p0, batch[n], keep);
      BatchIsStretch(log, p0, batch[..n], from, to - 1, keep);
      assert TxValues(batch)[..n] == TxValues(batch[..n]);
    } else if from < to {
      BatchIsStretch(log, p0, batch, from, to - 1, keep);
    }
  }

  lemma LandExtendsFold(log: Log, p0: Part, s: State, keep: TxKey -> bool)
    requires OwnKeys(log, p0, keep) && ShapeOk(log, s) && SourcesOk(log, s) && LandedOk(log, s)
    requires FoldOk(log, p0, s, keep)
    ensures ValidOffsets(log, LandBatches(s).hist.landed) && FoldOk(log, p0, LandBatches(s), keep)
  {
    var from, to := s.hist.flushed[p0], s.proc.position[p0];
    assert StretchOk(log, s, p0);
    BatchIsStretch(log, p0, s.proc.txBatch, from, to, keep);
    KeptInsert(s.store.txs, TxValues(s.proc.txBatch), keep);
    ReplayMessages(log[p0], from, s.hist.landed[p0], to, TxRow(keep));
  }

  /** Replaying msgs[c..q] onto the table of msgs[..hw] gives the table of the longer prefix. */
  lemma ReplayMessages<K, T>(msgs: seq<Message>, c: nat, hw: nat, q: nat, row: Message -> Option<(K, T)>)
    requires c <= hw <= |msgs| && c <= q <= |msgs|
    ensures InsertIgnore(InsertIgnore(map[], RowsOf(msgs, 0, hw, row)), RowsOf(msgs, c, q, row))
         == InsertIgnore(map[], RowsOf(msgs, 0, if hw < q then q else hw, row))
  {
    var m := if hw < q then q else hw;
    var rows := RowsOf(msgs, 0, m, row);
    RowsSplit(msgs, 0, hw, m, row);
    RowsSplit(msgs, 0, q, m, row);
    RowsSplit(msgs, 0, c, q, row);
    RowsSplit(msgs, 0, c, hw, row);
    var i, j, k := |RowsOf(msgs, 0, c, row)|, |RowsOf(msgs, 0, hw, row)|, |RowsOf(msgs, 0, q, row)|;
    assert rows[..j] == RowsOf(msgs, 0, hw, row);
    assert rows[..k] == RowsOf(msgs, 0, q, row);
    assert rows[i..k] == RowsOf(msgs, c, q, row);
    ReplayExtendsPrefix(rows, i, j, k);
    assert hw < q ==> rows[..k] == rows;
    assert q <= hw ==> rows[..j] == rows;
    if hw < q { RowsSplit(msgs, 0, hw, q, row); } else { RowsSplit(msgs, 0, q, hw, row); }
  }

  lemma CommitFold(log: Log, p0: Part, s: State, outcome: DbOutcome, keep: TxKey -> bool)
    requires OwnKeys(log, p0, keep) && ShapeOk(log, s) && SourcesOk(log, s) && LandedOk(log, s)
    requires FoldOk(log, p0, s, keep) && Enabled(log, s, DbCommit(outcome))
    ensures var t := Apply(log, s, DbCommit(outcome)); ValidOffsets(log, t.hist.landed) && FoldOk(log, p0, t, keep)
  {
    var t := Apply(log, s, DbCommit(outcome));
    LandExtendsFold(log, p0, s, keep);
    assert outcome.Lost? || (t.store == LandBatches(s).store && t.hist.landed == LandBatches(s).hist.landed);
  }

  lemma FoldKept(log: Log, p0: Part, s: State, step: Step, t: State, keep: TxKey -> bool)
    requires OwnKeys(log, p0, keep) && ShapeOk(log, s) && SourcesOk(log, s) && LandedOk(log, s)
    requires FoldOk(log, p0, s, keep) && Enabled(log, s, step) && t == Apply(log, s, step) && Touches(s, step, t)
    ensures ValidOffsets(log, t.hist.landed) && FoldOk(log, p0, t, keep)
  {
    if step.DbCommit? { CommitFold(log, p0, s, step.outcome, keep); }
  }

  // ---- over runs ------------------------------------------------------------------------------------------

  ghost predicate ReplayInv(log: Log, s: State) {
    Inv(log, s) && ShapeOk(log, s) && OrderOk(log, s) && LandedOk(log, s) && KeysOk(log, s)
  }

  lemma StepKeepsReplayInv(log: Log, s: State, step: Step)
    requires ReplayInv(log, s) && Enabled(log, s, step)
    ensures ReplayInv(log, Apply(log, s, step))
  {
    var t := Apply(log, s, step);
    StepKeepsInv(log, s, step);
    Footprint(log, s, step);
    ShapeKept(log, s, step, t);
    OrderKept(log, s, step, t);
    LandedKept(log, s, step, t);
    KeysKept(log, s, step, t);
  }

  lemma InitShape(log: Log)
    ensures ReplayInv(log, Init(log))
  {
    forall p | p in log ensures OffsetsOf(Init(log).proc.txBatch, p) == TxOffsets(log[p], 0, 0) {}
  }

  lemma {:induction false} EveryRunKeepsReplayInv(log: Log, steps: seq<Step>)
    requires Legal(log, Init(log), steps)
    ensures ReplayInv(log, Run(log, Init(log), steps))
  {
    if steps == [] {
      InitShape(log);
    } else {
      var k := |steps| - 1;
      EveryRunKeepsReplayInv(log, steps[..k]);
      StepKeepsReplayInv(log, Run(log, Init(log), steps[..k]), steps[k]);
    }
  }

  lemma {:induction false} EveryRunKeepsFold(log: Log, p0: Part, steps: seq<Step>, keep: TxKey -> bool)
    requires OwnKeys(log, p0, keep) && Legal(log, Init(log), steps)
    ensures var t := Run(log, Init(log), steps); ReplayInv(log, t) && FoldOk(log, p0, t, keep)
  {
    EveryRunKeepsReplayInv(log, steps);
    if steps != [] {
      var k := |steps| - 1;
      EveryRunKeepsReplayInv(log, steps[..k]);
      EveryRunKeepsFold(log, p0, steps[..k], keep);
      var s := Run(log, Init(log), steps[..k]);
      Footprint(log, s, steps[k]);
      FoldKept(log, p0, s, steps[k], Apply(log, s, steps[k]), keep);
    }
  }
}
