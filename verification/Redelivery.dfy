/**
 When a transaction or a transfer can get a second row: exactly when two deliveries of it can be read with different
 times.  The runs that show it read a delivery, lose the offset commit, and read again.
 */
module Redelivery {
  import opened Wrappers
  import opened Messages
  import opened Tables
  import opened Protocol
  import opened StepFootprint
  import opened Safety
  import opened Replay
  import opened Guarantees

  // ---- timestamps taken from the clock ------------------------------------------------------------------

  ghost predicate ReplayIsIdempotent(b: TxBody) {
    forall t: map<TxKey, Tx>, first, second ::
      var x, y := DecodeTx(b, first), DecodeTx(b, second);
      x.Some? && y.Some? ==>
        InsertOne(InsertOne(t, (KeyOf(x.value), x.value)), (KeyOf(y.value), y.value)) == InsertOne(t, (KeyOf(x.value), x.value))
  }

  /** Inserting a message twice is inserting it once exactly when its timestamp is stable (or it is rejected). */
  lemma IdempotentIffStable(b: TxBody)
    ensures ReplayIsIdempotent(b) <==> b.stamp.Absent? || Stable(b.stamp)
  {
    if !b.stamp.Absent? && !Stable(b.stamp) {
      var x, y := DecodeTx(b, 0).value, DecodeTx(b, 1).value;
      var none: map<TxKey, Tx> := map[];
      var once := InsertOne(none, (KeyOf(x), x));
      assert KeyOf(y) !in once;
      assert KeyOf(y) in InsertOne(once, (KeyOf(y), y));
    }
  }

  // ---- reading on, whatever comes ----------------------------------------------------------------------------------

  /** A process in its loop. */
  predicate Looping(s: State) { s.proc.pc.Head? && s.proc.running }

  /** The tables and offsets are the same, and rows have been added at the end of the batches, if anything. */
  predicate MoreBuffered(s: State, t: State) {
    && t.store.txs == s.store.txs && t.store.transfers == s.store.transfers && t.store.committed == s.store.committed
    && t.proc.running == s.proc.running
    && s.proc.txBatch <= t.proc.txBatch && s.proc.transferBatch <= t.proc.transferBatch
  }

  /** The environment has not stepped in. */
  predicate Unaided(steps: seq<Step>) { forall i :: 0 <= i < |steps| ==> !IsEnvironment(steps[i]) }

  predicate NoCacheChanges(steps: seq<Step>) { forall i :: 0 <= i < |steps| ==> !steps[i].CacheChanges? }

  /** Without a connection the size test ends at the loop head, the batches kept. */
  lemma PassTest(log: Log, s: State) returns (steps: seq<Step>)
    requires s.proc.pc.Check?
    ensures Legal(log, s, steps) && Unaided(steps)
    ensures var t := Run(log, s, steps); t.store == s.store && t.proc == s.proc.(pc := Head)
  {
    Single(log, s, CheckSize(false));
    steps := [CheckSize(false)];
  }

  /** Reads that return end the lookup, with the transfer in the batch or not. */
  lemma {:induction false} PassLookup(log: Log, s: State) returns (steps: seq<Step>)
    requires s.proc.pc.Enriching?
    ensures Legal(log, s, steps) && Unaided(steps)
    ensures var t := Run(log, s, steps); MoreBuffered(s, t) && t.proc.pc.Check? && t.proc.position == s.proc.position
    ensures s.proc.pc.model.block in s.store.cache ==>
      var m := s.proc.pc.model; var t := Run(log, s, steps);
      t.proc.transferBatch == s.proc.transferBatch + [Buffered(s.proc.pc.origin, Stamped(m, s.store.cache[m.block]))]
    decreases MAX_RETRIES - s.proc.pc.retries
  {
    Single(log, s, LookupReply(false));
    steps := [LookupReply(false)];
    var t := Run(log, s, steps);
    if t.proc.pc.Enriching? {
      var rest := PassLookup(log, t);
      Chain(log, s, steps, rest);
      steps := steps + rest;
    }
  }

  /** The poll and the dispatch. */
  lemma PollNext(log: Log, s: State, p: Part, now: int) returns (steps: seq<Step>)
    requires Looping(s) && Enabled(log, s, PollMessage(p, now)) && !log[p][s.proc.position[p]].NotAnObject?
    ensures Legal(log, s, steps) && Unaided(steps)
    ensures var t := Run(log, s, steps);
      && MoreBuffered(s, t) && t.proc.position == s.proc.position[p := s.proc.position[p] + 1]
      && (t.proc.pc.Head? || t.proc.pc.Check? || t.proc.pc.Caching? || t.proc.pc.Enriching?)
  {
    Single(log, s, PollMessage(p, now));
    steps := [PollMessage(p, now)];
  }

  /** Any message that is null or an object can be read. */
  lemma ReadNext(log: Log, s: State, p: Part, now: int) returns (steps: seq<Step>)
    requires Looping(s) && Enabled(log, s, PollMessage(p, now)) && !log[p][s.proc.position[p]].NotAnObject?
    ensures Legal(log, s, steps) && Unaided(steps)
    ensures var t := Run(log, s, steps); MoreBuffered(s, t) && Looping(t) && t.proc.position == s.proc.position[p := s.proc.position[p] + 1]
  {
    steps := PollNext(log, s, p, now);
    var t := Run(log, s, steps);
    var rest := ReachHead(log, t);
    Chain(log, s, steps, rest);
    BufferedOn(s, t, Run(log, t, rest));
    steps := steps + rest;
  }

  lemma BufferedOn(s: State, t: State, u: State)
    requires MoreBuffered(s, t) && MoreBuffered(t, u)
    ensures MoreBuffered(s, u)
  {
  }

  /** From the dispatch on a message back to the loop head. */
  lemma ReachHead(log: Log, s: State) returns (steps: seq<Step>)
    requires s.proc.running && (s.proc.pc.Head? || s.proc.pc.Check? || s.proc.pc.Caching? || s.proc.pc.Enriching?)
    ensures Legal(log, s, steps) && Unaided(steps)
    ensures var t := Run(log, s, steps); MoreBuffered(s, t) && Looping(t) && t.proc.position == s.proc.position
  {
    steps := [];
    if s.proc.pc.Caching? {
      Single(log, s, CacheReply(false));
      steps := [CacheReply(false)];
    } else if s.proc.pc.Enriching? {
      steps := PassLookup(log, s);
    }
    var t := Run(log, s, steps);
    if t.proc.pc.Check? {
      var rest := PassTest(log, t);
      Chain(log, s, steps, rest);
      steps := steps + rest;
    }
  }

  /** The messages of `p` up to `o` include none the loop stops at. */
  predicate Readable(log: Log, p: Part, o: nat) {
    p in log && o < |log[p]| && forall i :: 0 <= i <= o ==> !log[p][i].NotAnObject?
  }

  lemma {:induction false} ReadUpTo(log: Log, s: State, p: Part, o: nat) returns (steps: seq<Step>)
    requires Looping(s) && Readable(log, p, o) && p in s.proc.position && s.proc.position[p] <= o
    ensures Legal(log, s, steps) && Unaided(steps)
    ensures var t := Run(log, s, steps); MoreBuffered(s, t) && Looping(t) && t.proc.position == s.proc.position[p := o]
    decreases o - s.proc.position[p]
  {
    steps := [];
    if s.proc.position[p] < o {
      steps := ReadNext(log, s, p, 0);
      var rest := ReadUpTo(log, Run(log, s, steps), p, o);
      Chain(log, s, steps, rest);
      steps := steps + rest;
    }
  }

  predicate HoldsTx(s: State, tx: Tx) { exists i :: 0 <= i < |s.proc.txBatch| && s.proc.txBatch[i].item == tx }

  predicate HoldsTransfer(s: State, t: Transfer) {
    exists i :: 0 <= i < |s.proc.transferBatch| && s.proc.transferBatch[i].item == t
  }

  /** A transaction is read with any time its message admits. */
  lemma TakeTx(log: Log, s: State, p: Part, tx: Tx) returns (steps: seq<Step>)
    requires Looping(s) && Enabled(log, s, PollMessage(p, tx.timestamp))
    requires var m := log[p][s.proc.position[p]]; Accepted(m) && Reads(m.tx, tx)
    ensures Legal(log, s, steps)
    ensures var t := Run(log, s, steps); MoreBuffered(s, t) && Looping(t) && HoldsTx(t, tx)
  {
    var step := PollMessage(p, tx.timestamp);
    Single(log, s, step);
    steps := [step];
    var t := Run(log, s, steps);
    PollBatch(log, s, p, tx.timestamp);
    assert t.proc.txBatch[|s.proc.txBatch|].item == tx;
    var rest := ReachHead(log, t);
    var u := Run(log, t, rest);
    assert u.proc.txBatch[|s.proc.txBatch|].item == tx;
    Chain(log, s, steps, rest);
    steps := steps + rest;
  }

  /** The cache has come to hold the time of one block. */
  lemma LearnBlock(log: Log, s: State, block: int, time: int) returns (steps: seq<Step>)
    requires Looping(s) && IsBlockTime(log, block, time)
    ensures Legal(log, s, steps)
    ensures Run(log, s, steps) == s.(store := s.store.(cache := map[block := time]))
  {
    Single(log, s, CacheChanges(map[block := time]));
    steps := [CacheChanges(map[block := time])];
  }

  /** A transfer that has its own time is buffered with any time its message admits. */
  lemma TakeStamped(log: Log, s: State, p: Part, t: Transfer) returns (steps: seq<Step>)
    requires Looping(s) && Enabled(log, s, PollMessage(p, t.timestamp))
    requires var m := log[p][s.proc.position[p]];
      m.TokenTransfer? && ReadsTransfer(log, m.transfer, t) && !m.transfer.stamp.Absent?
    ensures Legal(log, s, steps)
    ensures var u := Run(log, s, steps); MoreBuffered(s, u) && u.proc.pc.Check? && HoldsTransfer(u, t)
  {
    Single(log, s, PollMessage(p, t.timestamp));
    steps := [PollMessage(p, t.timestamp)];
    var u := Run(log, s, steps);
    assert u.proc.transferBatch[|s.proc.transferBatch|].item == t;
  }

  /** One that has not is buffered with the time the cache holds for its block. */
  lemma TakeUnstamped(log: Log, s: State, p: Part, t: Transfer) returns (steps: seq<Step>)
    requires Looping(s) && Enabled(log, s, PollMessage(p, 0))
    requires var m := log[p][s.proc.position[p]];
      m.TokenTransfer? && ReadsTransfer(log, m.transfer, t) && m.transfer.stamp.Absent? &&
      m.transfer.block in s.store.cache && s.store.cache[m.transfer.block] == t.timestamp
    ensures Legal(log, s, steps) && Unaided(steps)
    ensures var u := Run(log, s, steps); MoreBuffered(s, u) && u.proc.pc.Check? && HoldsTransfer(u, t)
  {
    Single(log, s, PollMessage(p, 0));
    steps := [PollMessage(p, 0)];
    var u := Run(log, s, steps);
    var rest := PassLookup(log, u);
    assert Run(log, u, rest).proc.transferBatch[|s.proc.transferBatch|].item == t;
    Chain(log, s, steps, rest);
    steps := steps + rest;
  }

  lemma TakeTransfer(log: Log, s: State, p: Part, t: Transfer) returns (steps: seq<Step>)
    requires Looping(s) && p in log && p in s.proc.position && s.proc.position[p] < |log[p]|
    requires var m := log[p][s.proc.position[p]]; m.TokenTransfer? && ReadsTransfer(log, m.transfer, t)
    ensures Legal(log, s, steps)
    ensures var u := Run(log, s, steps); MoreBuffered(s, u) && u.proc.pc.Check? && HoldsTransfer(u, t)
  {
    var b := log[p][s.proc.position[p]].transfer;
    if b.stamp.Absent? {
      steps := LearnBlock(log, s, b.block, t.timestamp);
      var rest := TakeUnstamped(log, Run(log, s, steps), p, t);
      Chain(log, s, steps, rest);
      steps := steps + rest;
    } else {
      steps := TakeStamped(log, s, p, t);
    }
  }

  // ---- the commit lands, the offsets are lost ----------------------------------------------------------------------

  /** At the loop head of a process that starts from the committed offsets. */
  predicate Restarted(s: State) { Looping(s) && s.proc.position == s.store.committed }

  /** A shutdown flush whose database commit lands but raises, and a restart. */
  lemma LandAndRestart(log: Log, s: State) returns (steps: seq<Step>)
    requires s.proc.pc.Head? || s.proc.pc.Check?
    requires s.proc.txBatch != [] || s.proc.transferBatch != []
    ensures Legal(log, s, steps) && NoCacheChanges(steps)
    ensures var t := Run(log, s, steps);
      && Restarted(t) && t.store.committed == s.store.committed
      && t.store.txs == InsertIgnore(s.store.txs, TxValues(s.proc.txBatch))
      && t.store.transfers == InsertIgnore(s.store.transfers, TransferValues(s.proc.transferBatch))
  {
    var head := LeaveLoopNow(log, s);
    var t := Run(log, s, head);
    Single(log, t, BeginShutdown(true));
    Extend(log, t, [BeginShutdown(true)], DbCommit(LandedButRaised));
    var land := [BeginShutdown(true)] + [DbCommit(LandedButRaised)];
    Extend(log, t, land, Crash);
    land := land + [Crash];
    Chain(log, s, head, land);
    steps := head + land;
  }

  lemma LeaveLoopNow(log: Log, s: State) returns (steps: seq<Step>)
    requires s.proc.pc.Head? || s.proc.pc.Check?
    ensures Legal(log, s, steps) && NoCacheChanges(steps)
    ensures var t := Run(log, s, steps);
      t.proc.pc.Stopping? && t.store == s.store && t.proc.txBatch == s.proc.txBatch && t.proc.transferBatch == s.proc.transferBatch
  {
    steps := [];
    if s.proc.pc.Check? {
      Single(log, s, CheckSize(false));
      steps := [CheckSize(false)];
    }
    Extend(log, s, steps, Signal);
    steps := steps + [Signal];
    Extend(log, s, steps, LeaveLoop);
    steps := steps + [LeaveLoop];
  }

  /** After such a run all rows are kept and the batch's rows are there. */
  ghost predicate RowsAdded(s: State, t: State) {
    && (forall k :: k in s.store.txs ==> k in t.store.txs)
    && (forall k :: k in s.store.transfers ==> k in t.store.transfers)
  }

  lemma TxInserted(s: State, t: State, tx: Tx)
    requires HoldsTx(s, tx) && t.store.txs == InsertIgnore(s.store.txs, TxValues(s.proc.txBatch))
    ensures KeyOf(tx) in t.store.txs
  {
    InsertIgnoreMeaning(s.store.txs, TxValues(s.proc.txBatch));
    var i :| 0 <= i < |s.proc.txBatch| && s.proc.txBatch[i].item == tx;
    assert TxValues(s.proc.txBatch)[i].0 == KeyOf(tx);
  }

  lemma TransferInserted(s: State, t: State, row: Transfer)
    requires HoldsTransfer(s, row) && t.store.transfers == InsertIgnore(s.store.transfers, TransferValues(s.proc.transferBatch))
    ensures TransferKeyOf(row) in t.store.transfers
  {
    InsertIgnoreMeaning(s.store.transfers, TransferValues(s.proc.transferBatch));
    var i :| 0 <= i < |s.proc.transferBatch| && s.proc.transferBatch[i].item == row;
    assert TransferValues(s.proc.transferBatch)[i].0 == TransferKeyOf(row);
  }

  lemma LandingAdds(s: State, t: State)
    requires t.store.txs == InsertIgnore(s.store.txs, TxValues(s.proc.txBatch))
    requires t.store.transfers == InsertIgnore(s.store.transfers, TransferValues(s.proc.transferBatch))
    ensures RowsAdded(s, t)
  {
    InsertIgnoreMeaning(s.store.txs, TxValues(s.proc.txBatch));
    InsertIgnoreMeaning(s.store.transfers, TransferValues(s.proc.transferBatch));
  }

  /** From a restart, any reading of any readable transaction can be stored, and the process is back at a restart. */
  lemma StoreTx(log: Log, s: State, p: Part, o: nat, tx: Tx) returns (steps: seq<Step>)
    requires Restarted(s) && Readable(log, p, o) && p in s.store.committed && s.store.committed[p] <= o
    requires Accepted(log[p][o]) && Reads(log[p][o].tx, tx)
    ensures Legal(log, s, steps)
    ensures var t := Run(log, s, steps);
      Restarted(t) && t.store.committed == s.store.committed && RowsAdded(s, t) && KeyOf(tx) in t.store.txs
  {
    steps := ReadUpTo(log, s, p, o);
    var take := TakeTx(log, Run(log, s, steps), p, tx);
    Chain(log, s, steps, take);
    steps := steps + take;
    var t := Run(log, s, steps);
    var land := LandAndRestart(log, t);
    TxInserted(t, Run(log, t, land), tx);
    LandingAdds(t, Run(log, t, land));
    Chain(log, s, steps, land);
    steps := steps + land;
  }

  /** The same for transfers. */
  lemma StoreTransfer(log: Log, s: State, p: Part, o: nat, row: Transfer) returns (steps: seq<Step>)
    requires Restarted(s) && Readable(log, p, o) && p in s.store.committed && s.store.committed[p] <= o
    requires log[p][o].TokenTransfer? && ReadsTransfer(log, log[p][o].transfer, row)
    ensures Legal(log, s, steps)
    ensures var t := Run(log, s, steps);
      Restarted(t) && t.store.committed == s.store.committed && RowsAdded(s, t) && TransferKeyOf(row) in t.store.transfers
  {
    steps := ReadUpTo(log, s, p, o);
    var take := TakeTransfer(log, Run(log, s, steps), p, row);
    Chain(log, s, steps, take);
    steps := steps + take;
    var t := Run(log, s, steps);
    var land := LandAndRestart(log, t);
    TransferInserted(t, Run(log, t, land), row);
    LandingAdds(t, Run(log, t, land));
    Chain(log, s, steps, land);
    steps := steps + land;
  }

  // ---- block headers ------------------------------------------------------------------------------------------------

  lemma PollHeader(log: Log, s: State, p: Part, number: int, time: int) returns (steps: seq<Step>)
    requires Looping(s) && Enabled(log, s, PollMessage(p, 0)) && log[p][s.proc.position[p]] == BlockHeader(number, time)
    ensures Legal(log, s, steps) && Unaided(steps)
    ensures Run(log, s, steps) ==
      s.(proc := s.proc.(position := s.proc.position[p := s.proc.position[p] + 1], pc := Caching(number, time)))
  {
    Single(log, s, PollMessage(p, 0));
    steps := [PollMessage(p, 0)];
  }

  lemma CacheHeader(log: Log, s: State) returns (steps: seq<Step>)
    requires s.proc.pc.Caching?
    ensures Legal(log, s, steps) && Unaided(steps)
    ensures Run(log, s, steps) ==
      s.(store := s.store.(cache := s.store.cache[s.proc.pc.number := s.proc.pc.time]), proc := s.proc.(pc := Check))
  {
    Single(log, s, CacheReply(false));
    steps := [CacheReply(false)];
  }

  /** A header read by the loop puts its block's time into the cache, in place of what was there, and nothing else changes. */
  lemma HeaderReachesCache(log: Log, s: State, p: Part, number: int, time: int) returns (steps: seq<Step>)
    requires Looping(s) && Enabled(log, s, PollMessage(p, 0)) && log[p][s.proc.position[p]] == BlockHeader(number, time)
    ensures Legal(log, s, steps) && Unaided(steps)
    ensures var t := Run(log, s, steps);
      && Looping(t) && t.store == s.store.(cache := s.store.cache[number := time])
      && t.proc == s.proc.(position := s.proc.position[p := s.proc.position[p] + 1])
  {
    steps := PollHeader(log, s, p, number, time);
    var a := Run(log, s, steps);
    var cache := CacheHeader(log, a);
    var b := Run(log, a, cache);
    var test := PassTest(log, b);
    Chain(log, a, cache, test);
    Chain(log, s, steps, cache + test);
    steps := steps + (cache + test);
  }

  /** The time of a header, and the transfer that waits for it: from reading both to the row. */
  lemma CachedTimeStored(log: Log, s: State, p: Part, q: Part, o: nat, number: int, time: int) returns (steps: seq<Step>)
    requires Looping(s) && Enabled(log, s, PollMessage(p, 0)) && log[p][s.proc.position[p]] == BlockHeader(number, time)
    requires p != q && q in log && q in s.proc.position && s.proc.position[q] == o < |log[q]| && log[q][o].TokenTransfer?
    requires var b := log[q][o].transfer; b.stamp.Absent? && b.block == number
    ensures Legal(log, s, steps) && NoCacheChanges(steps)
    ensures var b := log[q][o].transfer; TransferKey(b.hash, b.logIndex, time) in Run(log, s, steps).store.transfers
  {
    steps := HeaderReachesCache(log, s, p, number, time);
    var t := Run(log, s, steps);
    var b := log[q][o].transfer;
    var row := Transfer(b.hash, b.logIndex, time, b.token, b.from, b.to, b.value);
    assert IsBlockTime(log, number, time) by { assert log[p][s.proc.position[p]] == BlockHeader(number, time); }
    var take := TakeUnstamped(log, t, q, row);
    Chain(log, s, steps, take);
    steps := steps + take;
    var u := Run(log, t, take);
    var land := LandAndRestart(log, u);
    TransferInserted(u, Run(log, u, land), row);
    Chain(log, s, steps, land);
    steps := steps + land;
  }

  /**
   A transfer without a timestamp is stored with the time its block's header gives, on a run in which nobody but the
   consumer writes to the cache.
   */
  lemma HeaderTimesTransfer(log: Log, p: Part, h: nat, q: Part, o: nat)
    requires p != q && Readable(log, p, h) && Readable(log, q, o) && log[p][h].BlockHeader? && log[q][o].TokenTransfer?
    requires log[q][o].transfer.stamp.Absent? && log[q][o].transfer.block == log[p][h].number
    ensures exists steps ::
      && Legal(log, Init(log), steps) && NoCacheChanges(steps)
      && var b := log[q][o].transfer; TransferKey(b.hash, b.logIndex, log[p][h].time) in Run(log, Init(log), steps).store.transfers
  {
    var s0 := Init(log);
    var steps := ReadUpTo(log, s0, q, o);
    var rest := ReadUpTo(log, Run(log, s0, steps), p, h);
    Chain(log, s0, steps, rest);
    steps := steps + rest;
    rest := CachedTimeStored(log, Run(log, s0, steps), p, q, o, log[p][h].number, log[p][h].time);
    Chain(log, s0, steps, rest);
    steps := steps + rest;
  }

  // ---- two rows -----------------------------------------------------------------------------------------------------

  ghost predicate HasTx(log: Log, b: TxBody) {
    exists p, o: nat :: Readable(log, p, o) && log[p][o] == Transaction(b)
  }

  /** `x` is what some reading of a delivery makes. */
  ghost predicate Deliverable(log: Log, x: Tx) {
    exists b :: HasTx(log, b) && Reads(b, x)
  }

  /** No message stops the loop. */
  predicate AllReadable(log: Log) {
    forall p, o: nat :: p in log && o < |log[p]| ==> !log[p][o].NotAnObject?
  }

  lemma BothStored(log: Log, x: Tx, y: Tx) returns (s: State)
    requires Deliverable(log, x) && Deliverable(log, y)
    ensures Reachable(log, s) && KeyOf(x) in s.store.txs && KeyOf(y) in s.store.txs
  {
    var b :| HasTx(log, b) && Reads(b, x);
    var p, o: nat :| Readable(log, p, o) && log[p][o] == Transaction(b);
    var c :| HasTx(log, c) && Reads(c, y);
    var q, n: nat :| Readable(log, q, n) && log[q][n] == Transaction(c);
    var s0 := Init(log);
    var first := StoreTx(log, s0, p, o, x);
    var second := StoreTx(log, Run(log, s0, first), q, n, y);
    Chain(log, s0, first, second);
    s := Run(log, s0, first + second);
  }

  ghost predicate StoredTwice(log: Log, hash: string) {
    exists s, j, k :: Reachable(log, s) && j in s.store.txs && k in s.store.txs && j != k && j.hash == k.hash == hash
  }

  /** Two readings of deliveries of one transaction differ in their time. */
  ghost predicate TimesDiffer(log: Log, hash: string) {
    exists x, y :: Deliverable(log, x) && Deliverable(log, y) && x.hash == y.hash == hash && x.timestamp != y.timestamp
  }

  lemma RowIsDeliverable(log: Log, s: State, k: TxKey)
    requires AllReadable(log) && Reachable(log, s) && k in s.store.txs
    ensures Deliverable(log, s.store.txs[k]) && k == KeyOf(s.store.txs[k])
  {
    ReachableKeeps(log, s);
    assert TxRowFrom(log, s.store.txs[k]);
    var o: Origin :| TxFrom(log, Buffered(o, s.store.txs[k]));
    var m := log[o.part][o.offset];
    assert Readable(log, o.part, o.offset) && m == Transaction(m.tx);
  }

  /**
   A transaction can come to have two rows whenever its deliveries can be read with two times, and, where no message
   stops the loop, only then.
   */
  lemma TwoRowsIff(log: Log, hash: string)
    ensures TimesDiffer(log, hash) ==> StoredTwice(log, hash)
    ensures AllReadable(log) ==> (StoredTwice(log, hash) <==> TimesDiffer(log, hash))
  {
    if AllReadable(log) && StoredTwice(log, hash) {
      var s, j, k :| Reachable(log, s) && j in s.store.txs && k in s.store.txs && j != k && j.hash == k.hash == hash;
      RowIsDeliverable(log, s, j);
      RowIsDeliverable(log, s, k);
      assert TimesDiffer(log, hash);
    }
    if TimesDiffer(log, hash) {
      var x, y :| Deliverable(log, x) && Deliverable(log, y) && x.hash == y.hash == hash && x.timestamp != y.timestamp;
      var s := BothStored(log, x, y);
      assert KeyOf(x) != KeyOf(y);
    }
  }

  /** In particular a message leaves two rows of its own on some run exactly when its time is the clock's. */
  lemma ClockStampStoredTwice(log: Log, p: Part, o: nat)
    requires Readable(log, p, o) && Accepted(log[p][o])
    ensures var b := log[p][o].tx; OwnRowsTwice(log, b) <==> !Stable(b.stamp)
  {
    var b := log[p][o].tx;
    assert HasTx(log, b);
    if !Stable(b.stamp) {
      var x, y := DecodeTx(b, 0).value, DecodeTx(b, 1).value;
      assert Deliverable(log, x) && Deliverable(log, y);
      var s := BothStored(log, x, y);
      assert KeyOf(x) != KeyOf(y);
    }
  }

  /** A reachable table holds two readings of one message under different keys. */
  ghost predicate OwnRowsTwice(log: Log, b: TxBody) {
    exists s, x, y :: Reachable(log, s) && Reads(b, x) && Reads(b, y) &&
      KeyOf(x) in s.store.txs && KeyOf(y) in s.store.txs && KeyOf(x) != KeyOf(y)
  }

  ghost predicate DeliverableTransfer(log: Log, x: Transfer) {
    exists p, o: nat :: Readable(log, p, o) && log[p][o].TokenTransfer? && ReadsTransfer(log, log[p][o].transfer, x)
  }

  lemma BothTransfersStored(log: Log, x: Transfer, y: Transfer) returns (s: State)
    requires DeliverableTransfer(log, x) && DeliverableTransfer(log, y)
    ensures Reachable(log, s) && TransferKeyOf(x) in s.store.transfers && TransferKeyOf(y) in s.store.transfers
  {
    var p, o: nat :| Readable(log, p, o) && log[p][o].TokenTransfer? && ReadsTransfer(log, log[p][o].transfer, x);
    var q, n: nat :| Readable(log, q, n) && log[q][n].TokenTransfer? && ReadsTransfer(log, log[q][n].transfer, y);
    var s0 := Init(log);
    var first := StoreTransfer(log, s0, p, o, x);
    var second := StoreTransfer(log, Run(log, s0, first), q, n, y);
    Chain(log, s0, first, second);
    s := Run(log, s0, first + second);
  }

  ghost predicate TransferStoredTwice(log: Log, hash: string, index: int) {
    exists s, j, k :: Reachable(log, s) && j in s.store.transfers && k in s.store.transfers && j != k &&
      j.hash == k.hash == hash && j.logIndex == k.logIndex == index
  }

  ghost predicate TransferTimesDiffer(log: Log, hash: string, index: int) {
    exists x, y :: DeliverableTransfer(log, x) && DeliverableTransfer(log, y) && x.timestamp != y.timestamp &&
      x.hash == y.hash == hash && x.logIndex == y.logIndex == index
  }

  lemma TransferRowIsDeliverable(log: Log, s: State, k: TransferKey)
    requires AllReadable(log) && Reachable(log, s) && k in s.store.transfers
    ensures DeliverableTransfer(log, s.store.transfers[k]) && k == TransferKeyOf(s.store.transfers[k])
  {
    ReachableKeeps(log, s);
    assert TransferRowFrom(log, s.store.transfers[k]);
    var o: Origin :| TransferFrom(log, Buffered(o, s.store.transfers[k]));
    assert Readable(log, o.part, o.offset);
  }

  /**
   The same for a transfer, whose times are its own, its block's, or the clock's.
   */
  lemma TwoTransferRowsIff(log: Log, hash: string, index: int)
    ensures TransferTimesDiffer(log, hash, index) ==> TransferStoredTwice(log, hash, index)
    ensures AllReadable(log) ==> (TransferStoredTwice(log, hash, index) <==> TransferTimesDiffer(log, hash, index))
  {
    if AllReadable(log) && TransferStoredTwice(log, hash, index) {
      var s, j, k :| Reachable(log, s) && j in s.store.transfers && k in s.store.transfers && j != k &&
        j.hash == k.hash == hash && j.logIndex == k.logIndex == index;
      TransferRowIsDeliverable(log, s, j);
      TransferRowIsDeliverable(log, s, k);
      assert TransferTimesDiffer(log, hash, index);
    }
    if TransferTimesDiffer(log, hash, index) {
      var x, y :| DeliverableTransfer(log, x) && DeliverableTransfer(log, y) && x.timestamp != y.timestamp &&
        x.hash == y.hash == hash && x.logIndex == y.logIndex == index;
      var s := BothTransfersStored(log, x, y);
      assert TransferKeyOf(x) != TransferKeyOf(y);
    }
  }
}
