/** What each kind of step may touch, so that the invariants need not look inside the steps that touch nothing of theirs. */
module StepFootprint {
  import opened Messages
  import opened Tables
  import opened Protocol

  predicate IsEnvironment(step: Step) {
    step.OffsetLands? || step.AlertArrives? || step.CacheChanges? || step.Signal? || step.Crash?
  }

  /** The steps that only move on in the program. */
  predicate IsMove(step: Step) {
    step.PollIdle? || step.PollRaises? || step.LeaveLoop? || step.Close?
  }

  /** The tests before a flush. */
  predicate IsTest(step: Step) { step.CheckSize? || step.BeginShutdown? }

  predicate IsPublish(step: Step) { step.Send? || step.Callback? || step.Drain? }

  /** Between a successful database commit and the end of its flush. */
  predicate InFlight(pc: Pc) { pc.Sending? || pc.Draining? || pc.Alerted? || pc.Requested? }

  predicate Touches(s: State, step: Step, t: State) {
    && (step.DbCommit? ||
        (t.store.txs == s.store.txs && t.store.transfers == s.store.transfers && t.hist.landed == s.hist.landed))
    && (step.OffsetLands? || t.store.committed == s.store.committed)
    && (step.RequestOffsets? || t.store.requested == s.store.requested)
    && (step.CacheChanges? || step.CacheReply? || t.store.cache == s.store.cache)
    && (step.PollMessage? || step.Crash? || t.proc.position == s.proc.position)
    && (step.PollMessage? || step.Crash? || step.ClearBatches? ||
        (t.proc.txBatch == s.proc.txBatch && t.hist.flushed == s.hist.flushed))
    && (step.PollMessage? || step.LookupReply? || step.Crash? || step.ClearBatches? ||
        t.proc.transferBatch == s.proc.transferBatch)
    && (step.LookupReply? || (t.hist.skipped == s.hist.skipped && t.hist.dropped == s.hist.dropped))
    && (step.LookupReply? || step.Crash? || step.ClearBatches? || t.hist.missed == s.hist.missed)
    && (step.AlertArrives? || step.Callback? || t.store.delivered == s.store.delivered)
    && (step.Send? || t.store.handed == s.store.handed)
    && (IsPublish(step) || step.Crash? ||
        (t.proc.queue == s.proc.queue && (step.Close? || t.proc.error == s.proc.error)))
    && (step.PollMessage? || step.LookupReply? || t.proc.pc == s.proc.pc || !(t.proc.pc.Caching? || t.proc.pc.Enriching?))
    && (step.DbCommit? || IsPublish(step) || step.RequestOffsets? || t.proc.pc == s.proc.pc || !InFlight(t.proc.pc))
    && (step.Close? ==> t.proc.pc.Stopped?)
  }

  lemma EnvironmentFootprint(log: Log, s: State, step: Step)
    requires Enabled(log, s, step) && IsEnvironment(step)
    ensures Touches(s, step, Apply(log, s, step))
  {
  }

  lemma MoveFootprint(log: Log, s: State, step: Step)
    requires Enabled(log, s, step) && IsMove(step)
    ensures Touches(s, step, Apply(log, s, step))
  {
  }

  lemma SizeFootprint(log: Log, s: State, connected: bool)
    requires Enabled(log, s, CheckSize(connected))
    ensures Touches(s, CheckSize(connected), Apply(log, s, CheckSize(connected)))
  {
  }

  lemma ShutdownFootprint(log: Log, s: State, connected: bool)
    requires Enabled(log, s, BeginShutdown(connected))
    ensures Touches(s, BeginShutdown(connected), Apply(log, s, BeginShutdown(connected)))
  {
  }

  lemma CacheFootprint(log: Log, s: State, raised: bool)
    requires Enabled(log, s, CacheReply(raised))
    ensures Touches(s, CacheReply(raised), Apply(log, s, CacheReply(raised)))
  {
  }

  lemma SendFootprint(log: Log, s: State, accepted: bool)
    requires Enabled(log, s, Send(accepted))
    ensures Touches(s, Send(accepted), Apply(log, s, Send(accepted)))
  {
  }

  lemma CallbackFootprint(log: Log, s: State, i: nat, ok: bool)
    requires Enabled(log, s, Callback(i, ok))
    ensures Touches(s, Callback(i, ok), Apply(log, s, Callback(i, ok)))
  {
  }

  lemma DrainFootprint(log: Log, s: State)
    requires Enabled(log, s, Drain)
    ensures Touches(s, Drain, Apply(log, s, Drain))
  {
  }

  lemma PollFootprint(log: Log, s: State, part: Part, now: int)
    requires Enabled(log, s, PollMessage(part, now))
    ensures Touches(s, PollMessage(part, now), Apply(log, s, PollMessage(part, now)))
  {
  }

  lemma LookupFootprint(log: Log, s: State, raised: bool)
    requires Enabled(log, s, LookupReply(raised))
    ensures Touches(s, LookupReply(raised), Apply(log, s, LookupReply(raised)))
  {
  }

  lemma CommitFootprint(log: Log, s: State, outcome: DbOutcome)
    requires Enabled(log, s, DbCommit(outcome))
    ensures Touches(s, DbCommit(outcome), Apply(log, s, DbCommit(outcome)))
  {
  }

  lemma OffsetsFootprint(log: Log, s: State, step: Step)
    requires Enabled(log, s, step) && (step.RequestOffsets? || step.ClearBatches?)
    ensures Touches(s, step, Apply(log, s, step))
  {
  }

  lemma Footprint(log: Log, s: State, step: Step)
    requires Enabled(log, s, step)
    ensures Touches(s, step, Apply(log, s, step))
  {
    if step.PollMessage? { PollFootprint(log, s, step.part, step.now); }
    else if step.LookupReply? { LookupFootprint(log, s, step.raised); }
    else if step.DbCommit? { CommitFootprint(log, s, step.outcome); }
    else if step.RequestOffsets? || step.ClearBatches? { OffsetsFootprint(log, s, step); }
    else if step.CacheReply? { CacheFootprint(log, s, step.raised); }
    else if IsEnvironment(step) { EnvironmentFootprint(log, s, step); }
    else if IsMove(step) { MoveFootprint(log, s, step); }
    else if step.CheckSize? { SizeFootprint(log, s, step.connected); }
    else if step.BeginShutdown? { ShutdownFootprint(log, s, step.connected); }
    else if step.Send? { SendFootprint(log, s, step.accepted); }
    else if step.Callback? { CallbackFootprint(log, s, step.index, step.ok); }
    else { DrainFootprint(log, s); }
  }
}
