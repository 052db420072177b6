/**
 Where the promises about offsets end: a Redis read that raises and a message that is no object both end the loop, and
 the shutdown flush may commit past what was being read - or, with nothing buffered, nothing is ever committed again.
 */
module Limits {
  import opened Wrappers
  import opened Messages
  import opened Tables
  import opened Protocol
  import opened Safety
  import opened Replay
  import opened Guarantees
  import opened Redelivery
  import opened StepFootprint

  // ---- a Redis read that raises ------------------------------------------------------------------------

  ghost predicate SameBatches(s: State, t: State) {
    t.proc.txBatch == s.proc.txBatch && t.proc.transferBatch == s.proc.transferBatch && t.proc.position == s.proc.position
    && t.hist.dropped == s.hist.dropped
  }

  predicate Uninterrupted(steps: seq<Step>) { Crash !in steps }

  /** Acknowledge every outstanding send. */
  lemma {:induction false} AcknowledgeAll(log: Log, s: State) returns (steps: seq<Step>)
    requires InProducer(s.proc.pc)
    ensures Legal(log, s, steps) && Uninterrupted(steps) && Unpolled(steps)
    ensures var t := Run(log, s, steps);
      t.proc == s.proc.(queue := []) && t.hist == s.hist
    decreases |s.proc.queue|
  {
    steps := [];
    if s.proc.queue != [] {
      var step := Callback(0, true);
      Single(log, s, step);
      var t := Run(log, s, [step]);
      var rest := AcknowledgeAll(log, t);
      Chain(log, s, [step], rest);
      steps := [step] + rest;
    }
  }

  /** Hand over the remaining alerts. */
  lemma {:induction false} SendAll(log: Log, s: State) returns (steps: seq<Step>)
    requires s.proc.pc.Sending? && s.proc.pc.next < |Whales(s.proc.txBatch)|
    ensures Legal(log, s, steps) && Uninterrupted(steps) && Unpolled(steps)
    ensures var t := Run(log, s, steps);
      t.proc.pc == Draining(s.proc.pc.shutdown) && SameBatches(s, t) && t.proc.error == s.proc.error
    decreases |Whales(s.proc.txBatch)| - s.proc.pc.next
  {
    var step := Send(true);
    Single(log, s, step);
    steps := [step];
    var t := Run(log, s, steps);
    if t.proc.pc.Sending? {
      var rest := SendAll(log, t);
      Chain(log, s, steps, rest);
      steps := steps + rest;
    }
  }

  lemma DrainAll(log: Log, s: State) returns (steps: seq<Step>)
    requires s.proc.pc.Draining? && !s.proc.error
    ensures Legal(log, s, steps) && Uninterrupted(steps) && Unpolled(steps)
    ensures var t := Run(log, s, steps); t.proc.pc == Alerted(s.proc.pc.shutdown) && SameBatches(s, t)
  {
    var acks := AcknowledgeAll(log, s);
    Extend(log, s, acks, Drain);
    steps := acks + [Drain];
  }

  lemma Publish(log: Log, s: State) returns (steps: seq<Step>)
    requires s.proc.pc.Borrowed? && (Whales(s.proc.txBatch) == [] || !s.proc.error)
    ensures Legal(log, s, steps) && Uninterrupted(steps) && Unpolled(steps)
    ensures var t := Run(log, s, steps); t.proc.pc == Alerted(s.proc.pc.shutdown) && SameBatches(s, t)
  {
    Single(log, s, DbCommit(Landed));
    steps := [DbCommit(Landed)];
    if Whales(s.proc.txBatch) != [] {
      var sends := SendAll(log, Run(log, s, steps));
      Chain(log, s, steps, sends);
      steps := steps + sends;
      var drain := DrainAll(log, Run(log, s, steps));
      Chain(log, s, steps, drain);
      steps := steps + drain;
    }
  }

  /** A flush meets no fault unless an old delivery error waits for it. */
  lemma FlushCanComplete(log: Log, s: State) returns (steps: seq<Step>)
    requires s.proc.pc.Borrowed? && (Whales(s.proc.txBatch) == [] || !s.proc.error)
    ensures Legal(log, s, steps) && Uninterrupted(steps) && Unpolled(steps) && RequestOffsets(false) in steps
    ensures var t := Run(log, s, steps);
      t.proc.txBatch == [] && t.proc.transferBatch == [] && t.proc.position == s.proc.position &&
      s.proc.position in t.store.requested && t.hist.dropped == s.hist.dropped
  {
    steps := Publish(log, s);
    Extend(log, s, steps, RequestOffsets(false));
    steps := steps + [RequestOffsets(false)];
    assert RequestOffsets(false) in steps;
    Extend(log, s, steps, ClearBatches);
    steps := steps + [ClearBatches];
  }

  predicate NothingBuffered(s: State) { s.proc.txBatch == [] && s.proc.transferBatch == [] }

  /** From here this process will not ask for another offset commit. */
  predicate Done(s: State) {
    match s.proc.pc
    case Closing => true
    case Stopped => true
    case Stopping => NothingBuffered(s) || (Whales(s.proc.txBatch) != [] && s.proc.error)
    case Borrowed(shutdown) => shutdown && Whales(s.proc.txBatch) != [] && s.proc.error
    case Sending(_, shutdown) => shutdown && s.proc.error
    case Draining(shutdown) => shutdown && s.proc.error
    case _ => false
  }

  lemma DoneStays(log: Log, s: State, step: Step)
    requires Done(s) && Enabled(log, s, step) && !step.Crash?
    ensures Done(Apply(log, s, step)) && !step.RequestOffsets?
  {
  }

  lemma {:induction false} DoneAsksNoMore(log: Log, s: State, steps: seq<Step>)
    requires Done(s) && Legal(log, s, steps) && Uninterrupted(steps)
    ensures Done(Run(log, s, steps)) && RequestOffsets(false) !in steps
  {
    if steps != [] {
      var k := |steps| - 1;
      assert steps[k] in steps;
      assert forall x :: x in steps[..k] ==> x in steps;
      DoneAsksNoMore(log, s, steps[..k]);
      DoneStays(log, Run(log, s, steps[..k]), steps[k]);
      assert steps == steps[..k] + [steps[k]];
    }
  }

  // ---- the size test ---------------------------------------------------------------------------------------------

  /** The process goes on without another poll, and undisturbed. */
  predicate Unpolled(steps: seq<Step>) { forall i :: 0 <= i < |steps| ==> OnItsOwn(steps[i]) }

  predicate OnItsOwn(step: Step) {
    !IsEnvironment(step) && !step.PollIdle? && !step.PollRaises? && !step.PollMessage?
  }

  /** From here no offset commit is asked for before the next poll. */
  predicate Waits(s: State) {
    match s.proc.pc
    case Head => s.proc.running
    case Check => s.proc.running && (|s.proc.txBatch| + |s.proc.transferBatch| < 100 || !CanFlush(s))
    case Borrowed(shutdown) => !shutdown && s.proc.running && Whales(s.proc.txBatch) != [] && s.proc.error
    case Sending(_, shutdown) => !shutdown && s.proc.running && s.proc.error
    case Draining(shutdown) => !shutdown && s.proc.running && s.proc.error
    case _ => false
  }

  lemma WaitsOn(log: Log, s: State, step: Step)
    requires Waits(s) && Enabled(log, s, step) && OnItsOwn(step)
    ensures Waits(Apply(log, s, step)) && !step.RequestOffsets?
  {
  }

  lemma LastStepWaits(log: Log, s: State, steps: seq<Step>, before: State)
    requires steps != [] && Legal(log, s, steps) && before == Run(log, s, steps[..|steps| - 1]) && Waits(before)
    requires OnItsOwn(steps[|steps| - 1])
    ensures Waits(Run(log, s, steps)) && !steps[|steps| - 1].RequestOffsets?
  {
    WaitsOn(log, before, steps[|steps| - 1]);
  }

  lemma {:induction false} WaitingStays(log: Log, s: State, steps: seq<Step>)
    requires Waits(s) && Legal(log, s, steps) && Unpolled(steps)
    ensures Waits(Run(log, s, steps))
  {
    if steps != [] {
      var k := |steps| - 1;
      WaitingStays(log, s, steps[..k]);
      LastStepWaits(log, s, steps, Run(log, s, steps[..k]));
    }
  }

  lemma {:induction false} WaitingAsksNothing(log: Log, s: State, steps: seq<Step>)
    requires Waits(s) && Legal(log, s, steps) && Unpolled(steps)
    ensures RequestOffsets(false) !in steps
  {
    if steps != [] {
      var k := |steps| - 1;
      WaitingAsksNothing(log, s, steps[..k]);
      WaitingStays(log, s, steps[..k]);
      LastStepWaits(log, s, steps, Run(log, s, steps[..k]));
      assert steps == steps[..k] + [steps[k]];
    }
  }

  /**
   After a message the process can commit offsets before its next poll exactly when 100 records are buffered and, with a
   whale among them, no delivery error is waiting; and then it goes back to the loop head with empty batches.
   */
  lemma FullBatchCommitsIff(log: Log, s: State)
    requires s.proc.pc.Check? && s.proc.running
    ensures (exists steps :: Legal(log, s, steps) && Unpolled(steps) && RequestOffsets(false) in steps) <==>
            |s.proc.txBatch| + |s.proc.transferBatch| >= 100 && (Whales(s.proc.txBatch) == [] || !s.proc.error)
  {
    if |s.proc.txBatch| + |s.proc.transferBatch| >= 100 && (Whales(s.proc.txBatch) == [] || !s.proc.error) {
      var steps := FullBatchFlushes(log, s);
    } else if steps :| Legal(log, s, steps) && Unpolled(steps) && RequestOffsets(false) in steps {
      WaitingAsksNothing(log, s, steps);
    }
  }

  lemma FullBatchFlushes(log: Log, s: State) returns (steps: seq<Step>)
    requires s.proc.pc.Check? && |s.proc.txBatch| + |s.proc.transferBatch| >= 100
    requires Whales(s.proc.txBatch) == [] || !s.proc.error
    ensures Legal(log, s, steps) && Unpolled(steps) && RequestOffsets(false) in steps
    ensures var t := Run(log, s, steps);
      t.proc.txBatch == [] && t.proc.transferBatch == [] && s.proc.position in t.store.requested
  {
    Single(log, s, CheckSize(true));
    steps := [CheckSize(true)];
    var rest := FlushCanComplete(log, Run(log, s, steps));
    Chain(log, s, steps, rest);
    steps := steps + rest;
  }

  /** Some continuation of this process asks for an offset commit. */
  ghost predicate MayAskForCommit(log: Log, s: State) {
    exists steps :: Legal(log, s, steps) && Uninterrupted(steps) && RequestOffsets(false) in steps
  }

  /** There is something to flush, and no old delivery error stands in the way. */
  predicate CanFlush(s: State) { !NothingBuffered(s) && (Whales(s.proc.txBatch) == [] || !s.proc.error) }

  /** A process that has left its loop may still ask for an offset commit exactly when it can flush. */
  lemma LeavingCommitsIff(log: Log, s: State)
    requires s.proc.pc.Stopping?
    ensures MayAskForCommit(log, s) <==> CanFlush(s)
  {
    if CanFlush(s) {
      Single(log, s, BeginShutdown(true));
      var steps := [BeginShutdown(true)];
      var rest := FlushCanComplete(log, Run(log, s, steps));
      Chain(log, s, steps, rest);
      assert RequestOffsets(false) in steps + rest;
    } else if MayAskForCommit(log, s) {
      var steps :| Legal(log, s, steps) && Uninterrupted(steps) && RequestOffsets(false) in steps;
      DoneAsksNoMore(log, s, steps);
    }
  }

  /**
   When a Redis read raises, the process may go on to commit past the transfer in hand exactly when
   something is buffered and, if that includes a whale, no delivery error is waiting in the producer.
   */
  lemma RedisFailureCommitsPastIff(log: Log, s: State)
    requires s.proc.pc.Enriching?
    ensures MayAskForCommit(log, Apply(log, s, LookupReply(true))) <==> CanFlush(s)
  {
    LeavingCommitsIff(log, Apply(log, s, LookupReply(true)));
  }

  /** The same for a message that is JSON but no object, whose TypeError the loop does not catch. */
  lemma NonObjectCommitsPastIff(log: Log, s: State, p: Part, now: int)
    requires Enabled(log, s, PollMessage(p, now)) && log[p][s.proc.position[p]].NotAnObject?
    ensures var t := Apply(log, s, PollMessage(p, now));
      && t.proc.position[p] == s.proc.position[p] + 1
      && (MayAskForCommit(log, t) <==> CanFlush(s))
  {
    LeavingCommitsIff(log, Apply(log, s, PollMessage(p, now)));
  }

  /** A log of one ordinary transaction and one transfer without a timestamp. */
  function TwoMessages(a: TxBody, b: TransferBody): Log {
    map[Part(Transactions, 0) := [Transaction(a)], Part(TokenTransfers, 0) := [TokenTransfer(b)]]
  }

  lemma TxRead(a: TxBody, b: TransferBody) returns (steps: seq<Step>)
    requires !a.stamp.Absent? && a.value < WHALE_THRESHOLD_WEI
    ensures var log := TwoMessages(a, b); Legal(log, Init(log), steps)
    ensures var log := TwoMessages(a, b); var s := Run(log, Init(log), steps); var p := Part(Transactions, 0);
      s == Init(log).(proc := Init(log).proc.(
                        position := Zero(log)[p := 1], txBatch := [Buffered(Origin(p, 0), DecodeTx(a, 0).value)], pc := Head))
  {
    var log := TwoMessages(a, b);
    var p := Part(Transactions, 0);
    Single(log, Init(log), PollMessage(p, 0));
    steps := [PollMessage(p, 0)];
    Extend(log, Init(log), steps, CheckSize(true));
    steps := steps + [CheckSize(true)];
  }

  /** Both messages are read; the transfer's block time is being looked up. */
  lemma BothRead(a: TxBody, b: TransferBody) returns (steps: seq<Step>)
    requires !a.stamp.Absent? && a.value < WHALE_THRESHOLD_WEI && b.stamp.Absent?
    ensures var log := TwoMessages(a, b); Legal(log, Init(log), steps)
    ensures var log := TwoMessages(a, b); var s := Run(log, Init(log), steps);
      s.proc.pc == Enriching(Origin(Part(TokenTransfers, 0), 0), DecodeTransfer(b, 0), 0) &&
      Part(TokenTransfers, 0) in s.proc.position && s.proc.position[Part(TokenTransfers, 0)] == 1 &&
      s.proc.txBatch != [] && Whales(s.proc.txBatch) == [] && s.proc.transferBatch == [] &&
      s.store.transfers == map[] && s.hist.skipped == {}
  {
    var log := TwoMessages(a, b);
    var q := Part(TokenTransfers, 0);
    steps := TxRead(a, b);
    Extend(log, Init(log), steps, PollMessage(q, 0));
    steps := steps + [PollMessage(q, 0)];
  }

  lemma RaiseAndLand(log: Log, s: State) returns (steps: seq<Step>)
    requires s.proc.pc.Enriching? && s.proc.txBatch != [] && Whales(s.proc.txBatch) == [] && s.proc.transferBatch == []
    ensures Legal(log, s, steps)
    ensures var t := Run(log, s, steps);
      t.proc.pc == Alerted(true) && t.proc.position == s.proc.position && t.store.transfers == s.store.transfers &&
      t.hist.skipped == s.hist.skipped
  {
    Single(log, s, LookupReply(true));
    steps := [LookupReply(true)];
    Extend(log, s, steps, BeginShutdown(true));
    steps := steps + [BeginShutdown(true)];
    assert Run(log, s, steps).proc == s.proc.(pc := Borrowed(true));
    Extend(log, s, steps, DbCommit(Landed));
    steps := steps + [DbCommit(Landed)];
  }

  lemma RequestAndLand(log: Log, s: State) returns (steps: seq<Step>)
    requires s.proc.pc.Alerted?
    ensures Legal(log, s, steps)
    ensures var t := Run(log, s, steps);
      t.store.committed == s.proc.position && t.store.transfers == s.store.transfers && t.hist.skipped == s.hist.skipped
  {
    Single(log, s, RequestOffsets(false));
    steps := [RequestOffsets(false)];
    Extend(log, s, steps, OffsetLands(s.proc.position));
    steps := steps + [OffsetLands(s.proc.position)];
  }

  /** A run after which the transfer is below the committed offset, not stored and not skipped. */
  lemma TransferLostOnRedisFailure(a: TxBody, b: TransferBody)
    requires !a.stamp.Absent? && a.value < WHALE_THRESHOLD_WEI && b.stamp.Absent?
    ensures exists s :: Reachable(TwoMessages(a, b), s)
                        && Part(TokenTransfers, 0) in s.store.committed && s.store.committed[Part(TokenTransfers, 0)] == 1
                        && s.store.transfers == map[] && s.hist.skipped == {}
  {
    var log := TwoMessages(a, b);
    var read := BothRead(a, b);
    var land := RaiseAndLand(log, Run(log, Init(log), read));
    Chain(log, Init(log), read, land);
    var ask := RequestAndLand(log, Run(log, Init(log), read + land));
    Chain(log, Init(log), read + land, ask);
    var s := Run(log, Init(log), read + land + ask);
    assert Reachable(log, s);
  }

  // ---- a consumer that never stores anything ------------------------------------------------------------------------

  /** Some message that can be stored lies before the first one of its partition that is no object. */
  ghost predicate SomethingStorable(log: Log) {
    (exists x :: Deliverable(log, x)) || (exists x :: DeliverableTransfer(log, x))
  }

  /** Nothing stored, buffered or committed, and no non-object read by a loop that goes on. */
  ghost predicate Barren(log: Log, s: State) {
    && s.store.txs == map[] && s.store.transfers == map[] && s.store.committed == Zero(log) && s.store.requested == {}
    && NothingBuffered(s) && !InFlight(s.proc.pc) && !s.proc.pc.Borrowed?
    && ValidOffsets(log, s.proc.position)
    && (Alive(s.proc.pc) ==> forall p, i: nat :: p in log && i < s.proc.position[p] ==> !log[p][i].NotAnObject?)
  }

  predicate Alive(pc: Pc) { !pc.Stopping? && !pc.Closing? && !pc.Stopped? }

  /** So does a transaction, or a stamped transfer, that is read before any such message. */
  lemma AcceptedIsStorable(log: Log, p: Part, o: nat, now: int)
    requires p in log && o < |log[p]| && Readable(log, p, o)
    requires Accepted(log[p][o]) || (log[p][o].TokenTransfer? && !log[p][o].transfer.stamp.Absent?)
    ensures SomethingStorable(log)
  {
    var m := log[p][o];
    if Accepted(m) {
      assert HasTx(log, m.tx);
      assert Deliverable(log, DecodeTx(m.tx, now).value);
    } else {
      var model := DecodeTransfer(m.transfer, now);
      assert DeliverableTransfer(log, Stamped(model, model.timestamp.value));
    }
  }

  /** Where nothing can be stored, a message read before any non-object is rejected or a transfer without a stamp. */
  predicate Harmless(m: Message) {
    !Accepted(m) && (m.TokenTransfer? ==> m.transfer.stamp.Absent?)
  }

  lemma PollStaysBarren(log: Log, s: State, p: Part, now: int)
    requires Barren(log, s) && !SomethingStorable(log) && Enabled(log, s, PollMessage(p, now))
    ensures Barren(log, Apply(log, s, PollMessage(p, now)))
  {
    var o := s.proc.position[p];
    if !log[p][o].NotAnObject? && !Harmless(log[p][o]) { AcceptedIsStorable(log, p, o, now); }
  }

  /** A lookup that hits has in hand a transfer that can be stored. */
  lemma HitIsStorable(log: Log, s: State)
    requires SourcesOk(log, s) && OffsetsOk(log, s) && s.proc.pc.Enriching? && s.proc.pc.model.block in s.store.cache
    requires var o := s.proc.pc.origin; Readable(log, o.part, o.offset)
    ensures SomethingStorable(log)
  {
    var Enriching(o, m, _) := s.proc.pc;
    var t := Stamped(m, s.store.cache[m.block]);
    assert ReadsTransfer(log, log[o.part][o.offset].transfer, t);
    assert DeliverableTransfer(log, t);
  }

  lemma LookupStaysBarren(log: Log, s: State, raised: bool)
    requires Barren(log, s) && !SomethingStorable(log) && Enabled(log, s, LookupReply(raised))
    requires SourcesOk(log, s) && OffsetsOk(log, s) && s.proc.pc.origin.part in log
    requires s.proc.pc.origin.offset + 1 == s.proc.position[s.proc.pc.origin.part]
    ensures Barren(log, Apply(log, s, LookupReply(raised)))
  {
    if s.proc.pc.model.block in s.store.cache { HitIsStorable(log, s); }
  }

  lemma EnvironmentStaysBarren(log: Log, s: State, step: Step)
    requires Barren(log, s) && Enabled(log, s, step) && IsEnvironment(step)
    ensures Barren(log, Apply(log, s, step))
  {
  }

  lemma OtherStaysBarren(log: Log, s: State, step: Step)
    requires Barren(log, s) && Enabled(log, s, step) && !step.PollMessage? && !step.LookupReply? && !IsEnvironment(step)
    ensures Barren(log, Apply(log, s, step))
  {
  }

  lemma {:induction false} RunStaysBarren(log: Log, steps: seq<Step>)
    requires !SomethingStorable(log) && Legal(log, Init(log), steps)
    ensures Barren(log, Run(log, Init(log), steps))
  {
    if steps != [] {
      var k := |steps| - 1;
      RunStaysBarren(log, steps[..k]);
      var s := Run(log, Init(log), steps[..k]);
      if steps[k].PollMessage? {
        PollStaysBarren(log, s, steps[k].part, steps[k].now);
      } else if steps[k].LookupReply? {
        EveryRunKeepsReplayInv(log, steps[..k]);
        LookupStaysBarren(log, s, steps[k].raised);
      } else if IsEnvironment(steps[k]) {
        EnvironmentStaysBarren(log, s, steps[k]);
      } else {
        OtherStaysBarren(log, s, steps[k]);
      }
    }
  }

  /** A run that has left the tables empty and the offsets where they were. */
  predicate Untouched(log: Log, s: State) {
    s.store.txs == map[] && s.store.transfers == map[] && s.store.committed == Zero(log)
  }

  /**
   Nothing is ever stored or committed, on any run and after any number of restarts, exactly when every message that
   could be stored lies behind one that is no object.
   */
  lemma NothingEverStoredIff(log: Log)
    ensures (forall s :: Reachable(log, s) ==> Untouched(log, s)) <==> !SomethingStorable(log)
  {
    if !SomethingStorable(log) {
      forall s | Reachable(log, s) ensures Untouched(log, s) {
        var steps :| Legal(log, Init(log), steps) && s == Run(log, Init(log), steps);
        RunStaysBarren(log, steps);
      }
    } else if x :| Deliverable(log, x) {
      var s := BothStored(log, x, x);
    } else {
      var x :| DeliverableTransfer(log, x);
      var s := BothTransfersStored(log, x, x);
    }
  }
}
