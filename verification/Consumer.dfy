/**
 src/consumer/main.py as it is written: batches appended to and cleared in place, a flush with its
 early exits, a retry loop, and the main loop.  Each method also returns the machine steps it took,
 so every prefix of an execution - wherever a crash cuts it - is a prefix of a legal run.
 */
module Consumer {
  import opened Wrappers
  import opened Messages
  import opened Tables
  import opened Protocol
  import opened Clients
  import opened Safety
  import Guarantees

  datatype SendScript = SendScript(accepted: bool, acks: seq<Ack>)

  /** What happens to the calls of one flush. */
  datatype FlushScript = FlushScript(
    connected: bool, txInsertRaises: bool, transferInsertRaises: bool, db: DbOutcome,
    sends: seq<SendScript>, lastAcks: seq<Ack>, offsetsRaise: bool)
  {
    function SendAt(i: nat): SendScript {
      if i < |sends| then sends[i] else SendScript(true, [])
    }
  }

  /** One Redis read: what the store holds by then, and whether the call raises. */
  datatype Reply = Reply(later: map<int, int>, raises: bool)

  datatype Input = Input(
    signal: bool, poll: PollChoice, now: int, setexRaises: bool, replies: seq<Reply>, flush: FlushScript)

  /** What a turn of the loop fills. */
  datatype Held = Held(txs: seq<Buffered<Tx>>, transfers: seq<Buffered<Transfer>>, cache: map<int, int>)

  /** Where the loop body goes after the dispatch. */
  datatype Next =
    | Continue
    | Escape
    | Test
    | CacheTime(number: int, time: int)
    | Enrich(origin: Origin, model: TransferModel)

  ghost function OutboxOf(s: State): Outbox {
    Outbox(s.proc.queue, s.proc.error, s.store.handed, s.store.delivered)
  }

  ghost function WithOutbox(s: State, o: Outbox): State {
    s.(store := s.store.(handed := o.handed, delivered := o.delivered), proc := s.proc.(queue := o.queue, error := o.error))
  }

  lemma CallbackIsAck(log: Log, s: State, ack: Ack)
    requires InProducer(s.proc.pc) && ack.index < |s.proc.queue|
    ensures Apply(log, s, Callback(ack.index, ack.ok)) == WithOutbox(s, Acked(OutboxOf(s), ack))
  {
  }

  /** Serving callbacks is a run of Callback steps. */
  lemma {:induction false} ServeRuns(log: Log, s: State, acks: seq<Ack>) returns (steps: seq<Step>)
    requires InProducer(s.proc.pc)
    ensures Legal(log, s, steps) && Run(log, s, steps) == WithOutbox(s, Served(OutboxOf(s), acks))
  {
    steps := [];
    if acks != [] {
      var k := |acks| - 1;
      steps := ServeRuns(log, s, acks[..k]);
      var t := WithOutbox(s, Served(OutboxOf(s), acks[..k]));
      if acks[k].index < |t.proc.queue| {
        CallbackIsAck(log, t, acks[k]);
        Extend(log, s, steps, Callback(acks[k].index, acks[k].ok));
        steps := steps + [Callback(acks[k].index, acks[k].ok)];
      }
    }
  }

  ghost function Advanced(s: State, part: Part): State
    requires part in s.proc.position
  {
    s.(proc := s.proc.(position := s.proc.position[part := s.proc.position[part] + 1]))
  }

  /** A poll that brings a message is the reading of it, one further on. */
  lemma PollRuns(log: Log, s: State, part: Part, now: int)
    requires Enabled(log, s, PollMessage(part, now))
    ensures var o := s.proc.position[part];
      Legal(log, s, [PollMessage(part, now)]) &&
      Run(log, s, [PollMessage(part, now)]) == Receive(Advanced(s, part), Origin(part, o), log[part][o], now)
  {
    Single(log, s, PollMessage(part, now));
  }

  /** The time a lookup finds. */
  ghost function TimeFound(s: State, raised: bool): Option<int>
    requires s.proc.pc.Enriching?
  {
    var block := s.proc.pc.model.block;
    if !raised && block in s.store.cache then Some(s.store.cache[block]) else None
  }

  /** What one lookup leaves. */
  lemma LookupRuns(log: Log, s: State, raised: bool) returns (t: State)
    requires s.proc.pc.Enriching? && s.proc.pc.retries <= MAX_RETRIES
    ensures Legal(log, s, [LookupReply(raised)]) && Run(log, s, [LookupReply(raised)]) == t
    ensures t.store == s.store
    ensures var pc := s.proc.pc; var time := TimeFound(s, raised);
      t.proc == s.proc.(
        transferBatch := s.proc.transferBatch +
          if time.Some? then [Buffered(pc.origin, Stamped(pc.model, time.value))] else [],
        pc := if raised then Stopping
              else if time.Some? || pc.retries == MAX_RETRIES then Check
              else Enriching(pc.origin, pc.model, pc.retries + 1))
  {
    Single(log, s, LookupReply(raised));
    t := Lookup(s, raised);
  }

  /** What a commit leaves, however it ends. */
  lemma CommitRuns(log: Log, s: State, outcome: DbOutcome) returns (t: State)
    requires s.proc.pc.Borrowed?
    ensures Legal(log, s, [DbCommit(outcome)]) && Run(log, s, [DbCommit(outcome)]) == t && PhaseOk(t)
    ensures t.proc == s.proc.(pc := t.proc.pc)
    ensures t.store == if outcome.Lost? then s.store else
      s.store.(txs := InsertIgnore(s.store.txs, TxValues(s.proc.txBatch)),
               transfers := InsertIgnore(s.store.transfers, TransferValues(s.proc.transferBatch)))
    ensures t.proc.pc == if !outcome.Landed? then if s.proc.pc.shutdown then Closing else Head
                         else if Whales(s.proc.txBatch) == [] then Alerted(s.proc.pc.shutdown)
                         else Sending(0, s.proc.pc.shutdown)
  {
    Single(log, s, DbCommit(outcome));
    CommitPhase(log, s, outcome);
    t := Commit(s, outcome, s.proc.pc.shutdown);
  }

  /** The flush that ends a publication, after its callbacks. */
  lemma DrainRuns(log: Log, s: State, acks: seq<Ack>) returns (steps: seq<Step>)
    requires s.proc.pc.Draining?
    ensures Legal(log, s, steps)
    ensures var o := Served(OutboxOf(s), acks);
      Run(log, s, steps) ==
      if o.queue != [] || o.error then FlushRaised(WithOutbox(s, AfterFlush(o)), s.proc.pc.shutdown)
      else At(WithOutbox(s, o), Alerted(s.proc.pc.shutdown))
  {
    steps := ServeRuns(log, s, acks);
    Extend(log, s, steps, Drain);
    steps := steps + [Drain];
  }

  /** And the one in the producer's close. */
  lemma CloseRuns(log: Log, s: State, acks: seq<Ack>) returns (steps: seq<Step>)
    requires s.proc.pc.Closing?
    ensures Legal(log, s, steps)
    ensures Run(log, s, steps) == At(WithOutbox(s, AfterFlush(Served(OutboxOf(s), acks))), Stopped)
  {
    steps := ServeRuns(log, s, acks);
    Extend(log, s, steps, Close);
    steps := steps + [Close];
  }

  // ---- what makes a flush fail ---------------------------------------------------------------------------------------

  /** The producer after the first `n` alerts, unless it refuses one of them. */
  ghost function AfterSends(o: Outbox, whales: seq<Tx>, n: nat, script: FlushScript): Option<Outbox>
    requires n <= |whales|
  {
    if n == 0 then Some(o)
    else
      var before := AfterSends(o, whales, n - 1, script);
      if before.Some? && script.SendAt(n - 1).accepted
      then Some(Served(Handed(before.value, whales[n - 1]), script.SendAt(n - 1).acks))
      else None
  }

  function Handed(o: Outbox, tx: Tx): Outbox { o.(queue := o.queue + [tx], handed := o.handed + {tx}) }

  lemma OneMoreSent(o: Outbox, whales: seq<Tx>, n: nat, script: FlushScript, sent: Outbox)
    requires n < |whales| && AfterSends(o, whales, n, script) == Some(sent)
    ensures script.SendAt(n).accepted ==>
      AfterSends(o, whales, n + 1, script) == Some(Served(Handed(sent, whales[n]), script.SendAt(n).acks))
    ensures !script.SendAt(n).accepted ==> AfterSends(o, whales, |whales|, script) == None
  {
    if !script.SendAt(n).accepted { RefusalStays(o, whales, n + 1, |whales|, script); }
  }

  lemma {:induction false} RefusalStays(o: Outbox, whales: seq<Tx>, n: nat, m: nat, script: FlushScript)
    requires n <= m <= |whales| && AfterSends(o, whales, n, script) == None
    ensures AfterSends(o, whales, m, script) == None
  {
    if n < m { RefusalStays(o, whales, n, m - 1, script); }
  }

  /** A send is refused, or at the end some alert has not arrived or an error is remembered. */
  ghost predicate PublishFails(o: Outbox, whales: seq<Tx>, script: FlushScript) {
    whales != [] &&
    match AfterSends(o, whales, |whales|, script)
    case None => true
    case Some(sent) => NotAllArrived(Served(sent, script.lastAcks))
  }

  predicate NotAllArrived(o: Outbox) { o.queue != [] || o.error }

  predicate InsertsFail(txs: seq<Buffered<Tx>>, transfers: seq<Buffered<Transfer>>, script: FlushScript) {
    (txs != [] && script.txInsertRaises) || (transfers != [] && script.transferInsertRaises)
  }

  /** Some call made with the connection raises. */
  ghost predicate CallsFail(txs: seq<Buffered<Tx>>, transfers: seq<Buffered<Transfer>>, o: Outbox, script: FlushScript) {
    InsertsFail(txs, transfers, script) || !script.db.Landed? || PublishFails(o, Whales(txs), script) || script.offsetsRaise
  }

  /** Or there is no connection. */
  ghost predicate FlushFails(txs: seq<Buffered<Tx>>, transfers: seq<Buffered<Transfer>>, o: Outbox, script: FlushScript) {
    !script.connected || CallsFail(txs, transfers, o, script)
  }

  /** The store only ever holds block times of the log. */
  ghost predicate TimesOk(log: Log, cache: map<int, int>) {
    forall n :: n in cache ==> IsBlockTime(log, n, cache[n])
  }

  ghost predicate RepliesOk(log: Log, replies: seq<Reply>) {
    forall i :: 0 <= i < |replies| ==> TimesOk(log, replies[i].later)
  }

  class Consumer {
    const db: DatabaseManager
    const kafka: KafkaConsumerClient
    const producer: KafkaProducerClient
    const redis: RedisManager
    var txBatch: seq<Buffered<Tx>>
    var transferBatch: seq<Buffered<Transfer>>
    var running: bool
    ghost var pc: Pc
    ghost var hist: Hist

    ghost function Abs(): State
      reads this, db, kafka, producer, redis
    {
      State(Store(db.txs, db.transfers, kafka.committed, kafka.requested, producer.handed, producer.delivered, redis.cache),
            Proc(kafka.position, txBatch, transferBatch, producer.queue, producer.error, running, pc),
            hist)
    }

    /** `steps` is a legal run of the machine from `from` to where this consumer now is. */
    ghost predicate Took(from: State, steps: seq<Step>)
      reads this, db, kafka, producer, redis
    {
      Legal(kafka.log, from, steps) && Abs() == Run(kafka.log, from, steps)
    }

    /** A process started on what earlier ones, if there were any, left behind in state `before`. */
    constructor (log: Log, store: Store, ghost before: State)
      requires store == before.store
      ensures fresh(db) && fresh(kafka) && fresh(producer) && fresh(redis)
      ensures kafka.log == log && Abs() == Apply(log, before, Crash) && running && pc == Head && db.borrowed == 0
    {
      db := new DatabaseManager(store.txs, store.transfers);
      kafka := new KafkaConsumerClient(log, store.committed, store.requested);
      producer := new KafkaProducerClient(store.handed, store.delivered);
      redis := new RedisManager(store.cache);
      txBatch, transferBatch, running := [], [], true;
      pc, hist := Head, Apply(log, before, Crash).hist;
    }

    method SendWhale(whale: Tx, next: nat, shutdown: bool, send: SendScript) returns (raised: bool, ghost steps: seq<Step>)
      requires pc == Sending(next, shutdown) && next < |Whales(txBatch)| && Whales(txBatch)[next] == whale
      modifies this`pc, this`hist, producer
      ensures Took(old(Abs()), steps)
      ensures raised == !send.accepted
      ensures !raised ==> hist == old(hist) &&
                          pc == if next + 1 < |Whales(txBatch)| then Sending(next + 1, shutdown) else Draining(shutdown)
      ensures !raised ==> producer.View() == Served(Handed(old(producer.View()), whale), send.acks)
      ensures raised ==> pc == if shutdown then Closing else Head
    {
      ghost var s0 := Abs();
      Single(kafka.log, s0, Send(send.accepted));
      steps := [Send(send.accepted)];
      ghost var after := SendNext(s0, send.accepted);
      raised := producer.SendMessage(whale, send.accepted, send.acks);
      pc, hist := after.proc.pc, after.hist;
      if !raised {
        ghost var acks := ServeRuns(kafka.log, after, send.acks);
        Chain(kafka.log, s0, steps, acks);
        steps := steps + acks;
      }
    }

    method DrainAlerts(shutdown: bool, acks: seq<Ack>) returns (raised: bool, ghost steps: seq<Step>)
      requires pc == Draining(shutdown)
      modifies this`pc, this`hist, producer
      ensures Took(old(Abs()), steps)
      ensures raised == NotAllArrived(Served(old(producer.View()), acks))
      ensures !raised ==> pc == Alerted(shutdown)
      ensures raised ==> pc == if shutdown then Closing else Head
    {
      ghost var s0 := Abs();
      steps := DrainRuns(kafka.log, s0, acks);
      ghost var after := Run(kafka.log, s0, steps);
      raised := producer.Flush(acks);
      pc, hist := after.proc.pc, after.hist;
    }

    /** The first `i` whales have been handed over. */
    ghost predicate SentUpTo(from: State, whales: seq<Tx>, i: nat, shutdown: bool, steps: seq<Step>)
      reads this, db, kafka, producer, redis
    {
      && i <= |whales| && whales == Whales(txBatch)
      && Took(from, steps)
      && pc == if i < |whales| then Sending(i, shutdown) else if whales == [] then Alerted(shutdown) else Draining(shutdown)
    }

    method SendNextWhale(ghost from: State, whales: seq<Tx>, i: nat, shutdown: bool, send: SendScript, ghost sofar: seq<Step>,
                         ghost o: Outbox)
      returns (raised: bool, ghost steps: seq<Step>)
      requires SentUpTo(from, whales, i, shutdown, sofar) && i < |whales| && producer.View() == o
      modifies this`pc, this`hist, producer
      ensures raised == !send.accepted
      ensures !raised ==> SentUpTo(from, whales, i + 1, shutdown, steps)
      ensures !raised ==> producer.View() == Served(Handed(o, whales[i]), send.acks)
      ensures raised ==> Took(from, steps) && pc == if shutdown then Closing else Head
    {
      ghost var more;
      raised, more := SendWhale(whales[i], i, shutdown, send);
      Chain(kafka.log, from, sofar, more);
      steps := sofar + more;
    }

    /** Hands the whales of the batch to the producer, one by one. */
    method SendWhales(whales: seq<Tx>, shutdown: bool, script: FlushScript, ghost o: Outbox) returns (raised: bool, ghost steps: seq<Step>)
      requires whales == Whales(txBatch) && pc == if whales == [] then Alerted(shutdown) else Sending(0, shutdown)
      requires producer.View() == o
      modifies this`pc, this`hist, producer
      ensures Took(old(Abs()), steps)
      ensures AfterSends(o, whales, |whales|, script) == if raised then None else Some(producer.View())
      ensures pc == if raised then if shutdown then Closing else Head
                    else if whales == [] then Alerted(shutdown) else Draining(shutdown)
    {
      ghost var s0, sent := Abs(), o;
      steps := [];
      var i := 0;
      while i < |whales|
        invariant SentUpTo(s0, whales, i, shutdown, steps)
        invariant producer.View() == sent && AfterSends(o, whales, i, script) == Some(sent)
      {
        OneMoreSent(o, whales, i, script, sent);
        raised, steps := SendNextWhale(s0, whales, i, shutdown, script.SendAt(i), steps, sent);
        if raised { return; }
        sent := Served(Handed(sent, whales[i]), script.SendAt(i).acks);
        i := i + 1;
      }
      return false, steps;
    }

    /** Sends the whales of the batch and waits for them. */
    method PublishWhaleAlerts(shutdown: bool, script: FlushScript) returns (raised: bool, count: nat, ghost steps: seq<Step>)
      requires pc == if Whales(txBatch) == [] then Alerted(shutdown) else Sending(0, shutdown)
      requires PhaseOk(Abs())
      modifies this`pc, this`hist, producer
      ensures Took(old(Abs()), steps)
      ensures raised <==> PublishFails(old(producer.View()), Whales(txBatch), script)
      ensures !raised ==> count == |Whales(txBatch)| && pc == Alerted(shutdown) &&
                          forall w :: w in Whales(txBatch) ==> w in producer.delivered
      ensures raised ==> pc == if shutdown then Closing else Head
    {
      ghost var s0 := Abs();
      ghost var more;
      var whales := Whales(txBatch);
      raised, steps := SendWhales(whales, shutdown, script, producer.View());
      if raised { return true, 0, steps; }
      if whales != [] {
        raised, more := DrainAlerts(shutdown, script.lastAcks);
        Chain(kafka.log, s0, steps, more);
        steps := steps + more;
        if raised { return true, 0, steps; }
      }
      RunKeepsPhase(kafka.log, s0, steps);
      return false, |whales|, steps;
    }

    method InsertBatches(conn: Connection, script: FlushScript) returns (raised: bool)
      requires conn.txs == [] && conn.transfers == []
      modifies conn
      ensures raised <==> InsertsFail(txBatch, transferBatch, script)
      ensures !raised ==> conn.txs == TxValues(txBatch) && conn.transfers == TransferValues(transferBatch)
    {
      if txBatch != [] {
        raised := db.InsertTransactionsBatch(conn, TxValues(txBatch), script.txInsertRaises);
        if raised { return; }
      }
      if transferBatch != [] {
        raised := db.InsertTokenTransfersBatch(conn, TransferValues(transferBatch), script.transferInsertRaises);
        if raised { return; }
      }
      return false;
    }

    /** conn.commit() */
    method CommitRows(conn: Connection, shutdown: bool, outcome: DbOutcome) returns (raised: bool, ghost steps: seq<Step>)
      requires pc == Borrowed(shutdown)
      requires conn.txs == TxValues(txBatch) && conn.transfers == TransferValues(transferBatch)
      modifies this`pc, this`hist, db`txs, db`transfers
      ensures Took(old(Abs()), steps) && PhaseOk(Abs())
      ensures raised == !outcome.Landed?
      ensures !raised ==> pc == (if Whales(txBatch) == [] then Alerted(shutdown) else Sending(0, shutdown)) &&
                          db.txs == InsertIgnore(old(db.txs), TxValues(txBatch)) &&
                          db.transfers == InsertIgnore(old(db.transfers), TransferValues(transferBatch))
      ensures raised ==> pc == if shutdown then Closing else Head
    {
      ghost var s0 := Abs();
      ghost var after := CommitRuns(kafka.log, s0, outcome);
      steps := [DbCommit(outcome)];
      raised := db.Commit(conn, outcome);
      pc, hist := after.proc.pc, after.hist;
    }

    /** An insert raised: the transaction is rolled back. */
    method RollBack(shutdown: bool) returns (ghost steps: seq<Step>)
      requires pc == Borrowed(shutdown)
      modifies this`pc, this`hist
      ensures Took(old(Abs()), steps) && PhaseOk(Abs())
      ensures pc == if shutdown then Closing else Head
    {
      ghost var s0 := Abs();
      Single(kafka.log, s0, DbCommit(Lost));
      steps := [DbCommit(Lost)];
      ghost var after := FlushRaised(s0, shutdown);
      pc, hist := after.proc.pc, after.hist;
    }

    /** The transaction part of a flush: insert both batches, commit. */
    method InsertAndCommit(conn: Connection, shutdown: bool, script: FlushScript) returns (raised: bool, ghost steps: seq<Step>)
      requires pc == Borrowed(shutdown) && conn.txs == [] && conn.transfers == []
      modifies this`pc, this`hist, db`txs, db`transfers, conn
      ensures Took(old(Abs()), steps)
      ensures raised <==> InsertsFail(txBatch, transferBatch, script) || !script.db.Landed?
      ensures !raised ==> pc == (if Whales(txBatch) == [] then Alerted(shutdown) else Sending(0, shutdown)) &&
                          db.txs == InsertIgnore(old(db.txs), TxValues(txBatch)) &&
                          db.transfers == InsertIgnore(old(db.transfers), TransferValues(transferBatch))
      ensures raised ==> pc == if shutdown then Closing else Head
    {
      raised := InsertBatches(conn, script);
      if raised {
        steps := RollBack(shutdown);
      } else {
        raised, steps := CommitRows(conn, shutdown, script.db);
      }
    }

    method BorrowConnection(shutdown: bool, connected: bool) returns (conn: Connection?, ghost steps: seq<Step>)
      requires if shutdown then pc == Stopping && (txBatch != [] || transferBatch != [])
               else pc == Check && |txBatch| + |transferBatch| >= BATCH_SIZE
      modifies this`pc, this`hist, db`borrowed
      ensures Took(old(Abs()), steps)
      ensures conn == null <==> !connected
      ensures conn == null ==> db.borrowed == old(db.borrowed) && pc == if shutdown then Closing else Head
      ensures conn != null ==> db.borrowed == old(db.borrowed) + 1 && pc == Borrowed(shutdown) &&
                               fresh(conn) && conn.txs == [] && conn.transfers == []
    {
      ghost var s0 := Abs();
      ghost var step := if shutdown then BeginShutdown(connected) else CheckSize(connected);
      Single(kafka.log, s0, step);
      steps := [step];
      ghost var after := Run(kafka.log, s0, steps);
      conn := db.GetConnection(connected);
      pc, hist := after.proc.pc, after.hist;
    }

    method RequestCommit(shutdown: bool, raises: bool) returns (raised: bool, ghost steps: seq<Step>)
      requires pc == Alerted(shutdown)
      modifies this`pc, this`hist, kafka`requested
      ensures Took(old(Abs()), steps) && raised == raises
      ensures raised ==> pc == (if shutdown then Closing else Head) && kafka.requested == old(kafka.requested)
      ensures !raised ==> pc == Requested(shutdown) && kafka.requested == old(kafka.requested) + {kafka.position}
    {
      ghost var s0 := Abs();
      Single(kafka.log, s0, RequestOffsets(raises));
      steps := [RequestOffsets(raises)];
      ghost var after := Run(kafka.log, s0, steps);
      raised := kafka.Commit(raises);
      pc, hist := after.proc.pc, after.hist;
    }

    method EmptyBatches(shutdown: bool) returns (ghost steps: seq<Step>)
      requires pc == Requested(shutdown)
      modifies this`pc, this`hist, this`txBatch, this`transferBatch
      ensures Took(old(Abs()), steps)
      ensures pc == (if shutdown then Closing else Head) && txBatch == [] && transferBatch == []
    {
      ghost var s0 := Abs();
      Single(kafka.log, s0, ClearBatches);
      steps := [ClearBatches];
      ghost var after := Run(kafka.log, s0, steps);
      txBatch, transferBatch := [], [];
      pc, hist := after.proc.pc, after.hist;
    }

    /** What a flush does after its rows are committed, to complete the run `sofar` from its beginning. */
    method PublishAndCommit(shutdown: bool, script: FlushScript, ghost o: Outbox, ghost from: State, ghost sofar: seq<Step>)
      returns (raised: bool, ghost steps: seq<Step>)
      requires pc == if Whales(txBatch) == [] then Alerted(shutdown) else Sending(0, shutdown)
      requires Took(from, sofar) && from.proc.pc.Borrowed? && producer.View() == o
      modifies this`pc, this`hist, this`txBatch, this`transferBatch, kafka`requested, producer
      ensures Took(from, steps)
      ensures raised <==> PublishFails(o, Whales(old(txBatch)), script) || script.offsetsRaise
      ensures pc == if shutdown then Closing else Head
      ensures !raised ==> txBatch == [] && transferBatch == [] && kafka.requested == old(kafka.requested) + {kafka.position} &&
                          forall w :: w in Whales(old(txBatch)) ==> w in producer.delivered
      ensures raised ==> txBatch == old(txBatch) && transferBatch == old(transferBatch) && kafka.requested == old(kafka.requested)
    {
      ghost var more;
      var count;
      RunKeepsPhase(kafka.log, from, sofar);
      raised, count, more := PublishWhaleAlerts(shutdown, script);
      Chain(kafka.log, from, sofar, more);
      steps := sofar + more;
      if raised { return; }
      raised, more := RequestCommit(shutdown, script.offsetsRaise);
      Chain(kafka.log, from, steps, more);
      steps := steps + more;
      if raised { return; }
      more := EmptyBatches(shutdown);
      Chain(kafka.log, from, steps, more);
      steps := steps + more;
    }

    /** Everything a flush does while it holds the connection. */
    method FlushOn(conn: Connection, shutdown: bool, script: FlushScript, ghost o: Outbox) returns (raised: bool, ghost steps: seq<Step>)
      requires pc == Borrowed(shutdown) && conn.txs == [] && conn.transfers == [] && producer.View() == o
      modifies this`pc, this`hist, this`txBatch, this`transferBatch, db`txs, db`transfers, conn, kafka`requested, producer
      ensures Took(old(Abs()), steps)
      ensures raised <==> CallsFail(old(txBatch), old(transferBatch), o, script)
      ensures pc == if shutdown then Closing else Head
      ensures !raised ==> txBatch == [] && transferBatch == [] && kafka.requested == old(kafka.requested) + {kafka.position} &&
                          (forall w :: w in Whales(old(txBatch)) ==> w in producer.delivered) &&
                          db.txs == InsertIgnore(old(db.txs), TxValues(old(txBatch))) &&
                          db.transfers == InsertIgnore(old(db.transfers), TransferValues(old(transferBatch)))
      ensures raised ==> txBatch == old(txBatch) && transferBatch == old(transferBatch) && kafka.requested == old(kafka.requested)
    {
      ghost var s0 := Abs();
      raised, steps := InsertAndCommit(conn, shutdown, script);
      if !raised { raised, steps := PublishAndCommit(shutdown, script, o, s0, steps); }
    }

    method FlushBatches(shutdown: bool, script: FlushScript) returns (raised: bool, ghost steps: seq<Step>)
      requires if shutdown then pc == Stopping && (txBatch != [] || transferBatch != [])
               else pc == Check && |txBatch| + |transferBatch| >= BATCH_SIZE
      modifies this`pc, this`hist, this`txBatch, this`transferBatch, db, kafka`requested, producer
      ensures Took(old(Abs()), steps)
      ensures raised <==> FlushFails(old(txBatch), old(transferBatch), old(producer.View()), script)
      ensures db.borrowed == old(db.borrowed)
      ensures pc == if shutdown then Closing else Head
      ensures !raised ==> txBatch == [] && transferBatch == [] && kafka.requested == old(kafka.requested) + {kafka.position} &&
                          (forall w :: w in Whales(old(txBatch)) ==> w in producer.delivered) &&
                          db.txs == InsertIgnore(old(db.txs), TxValues(old(txBatch))) &&
                          db.transfers == InsertIgnore(old(db.transfers), TransferValues(old(transferBatch)))
      ensures raised ==> txBatch == old(txBatch) && transferBatch == old(transferBatch) && kafka.requested == old(kafka.requested)
    {
      ghost var s0 := Abs();
      var conn;
      conn, steps := BorrowConnection(shutdown, script.connected);
      if conn == null { return true, steps; }
      ghost var more;
      raised, more := FlushOn(conn, shutdown, script, producer.View());
      Chain(kafka.log, s0, steps, more);
      steps := steps + more;
      db.ReleaseConnection(conn);
    }

    static function ReplyAt(replies: seq<Reply>, i: nat): (r: Reply)
      ensures i >= |replies| ==> r == Reply(map[], false)
    {
      if i < |replies| then replies[i] else Reply(map[], false)
    }

    /** Time passes between two reads: entries expire and other writers add theirs. */
    method Elapse(later: map<int, int>) returns (ghost steps: seq<Step>)
      requires TimesOk(kafka.log, later)
      modifies redis
      ensures Took(old(Abs()), steps)
      ensures redis.cache == later
    {
      ghost var s0 := Abs();
      redis.Elapse(later);
      Single(kafka.log, s0, CacheChanges(later));
      steps := [CacheChanges(later)];
    }

    /** One read of the block's time, and what the caller does with it. */
    method LookUpOnce(origin: Origin, model: TransferModel, retries: nat, raises: bool)
      returns (raised: bool, time: Option<int>, ghost steps: seq<Step>)
      requires pc == Enriching(origin, model, retries) && retries <= MAX_RETRIES
      modifies this`pc, this`hist, this`transferBatch
      ensures Took(old(Abs()), steps)
      ensures raised == raises
      ensures time == if !raised && model.block in redis.cache then Some(redis.cache[model.block]) else None
      ensures transferBatch == old(transferBatch) + Found(origin, model, time)
      ensures pc == if raised then Stopping
                    else if time.Some? || retries == MAX_RETRIES then Check
                    else Enriching(origin, model, retries + 1)
    {
      ghost var s0 := Abs();
      ghost var after := LookupRuns(kafka.log, s0, raises);
      steps := [LookupReply(raises)];
      raised, time := raises, None;
      if !raised {
        time := redis.GetBlockTimestamp(model.block);
        if time.Some? {
          transferBatch := transferBatch + [Buffered(origin, Stamped(model, time.value))];
        }
      }
      pc, hist := after.proc.pc, after.hist;
    }

    method ReadReply(origin: Origin, model: TransferModel, retries: nat, reply: Reply)
      returns (raised: bool, time: Option<int>, ghost steps: seq<Step>)
      requires pc == Enriching(origin, model, retries) && retries <= MAX_RETRIES
      requires TimesOk(kafka.log, reply.later)
      modifies this`pc, this`hist, this`transferBatch, redis
      ensures Took(old(Abs()), steps)
      ensures Gives(reply, model.block, raised, time)
      ensures transferBatch == old(transferBatch) + Found(origin, model, time)
      ensures pc == if raised then Stopping
                    else if time.Some? || retries == MAX_RETRIES then Check
                    else Enriching(origin, model, retries + 1)
    {
      ghost var s0 := Abs();
      ghost var more;
      steps := Elapse(reply.later);
      raised, time, more := LookUpOnce(origin, model, retries, reply.raises);
      Chain(kafka.log, s0, steps, more);
      steps := steps + more;
    }

    /** What reading reply `i` gives. */
    static predicate Gives(reply: Reply, block: int, raised: bool, time: Option<int>) {
      raised == reply.raises && time == if !raised && block in reply.later then Some(reply.later[block]) else None
    }

    /** The first `n` reads returned and found nothing. */
    static ghost predicate Misses(replies: seq<Reply>, block: int, n: nat) {
      forall i: nat :: i < n ==> Gives(ReplyAt(replies, i), block, false, None)
    }

    static lemma OneMoreMiss(replies: seq<Reply>, block: int, n: nat)
      requires Misses(replies, block, n) && Gives(ReplyAt(replies, n), block, false, None)
      ensures Misses(replies, block, n + 1)
    {
    }

    /** The rows a lookup adds to the batch. */
    static function Found(origin: Origin, model: TransferModel, time: Option<int>): seq<Buffered<Transfer>> {
      if time.Some? then [Buffered(origin, Stamped(model, time.value))] else []
    }

    /** Reads 0 to `retries` are done, the last giving `raised` and `time` and the earlier ones nothing. */
    ghost predicate ReadUpTo(from: State, origin: Origin, model: TransferModel, replies: seq<Reply>,
                             retries: nat, raised: bool, time: Option<int>, steps: seq<Step>)
      reads this, db, kafka, producer, redis
    {
      && retries <= MAX_RETRIES
      && Took(from, steps)
      && Misses(replies, model.block, retries)
      && Gives(ReplyAt(replies, retries), model.block, raised, time)
      && transferBatch == from.proc.transferBatch + Found(origin, model, time)
      && pc == if raised then Stopping
               else if time.Some? || retries == MAX_RETRIES then Check
               else Enriching(origin, model, retries + 1)
    }

    method ReadAgain(ghost from: State, origin: Origin, model: TransferModel, replies: seq<Reply>, retries: nat, ghost sofar: seq<Step>)
      returns (raised: bool, time: Option<int>, ghost steps: seq<Step>)
      requires ReadUpTo(from, origin, model, replies, retries, false, None, sofar)
      requires retries < MAX_RETRIES && RepliesOk(kafka.log, replies)
      modifies this`pc, this`hist, this`transferBatch, redis
      ensures ReadUpTo(from, origin, model, replies, retries + 1, raised, time, steps)
    {
      ghost var more;
      OneMoreMiss(replies, model.block, retries);
      raised, time, more := ReadReply(origin, model, retries + 1, ReplyAt(replies, retries + 1));
      Chain(kafka.log, from, sofar, more);
      steps := sofar + more;
    }

    /** Asks for the block's time up to eleven times: after `n` misses a read hits or raises, or it gives up. */
    method EnrichTokenTimestamp(origin: Origin, model: TransferModel, replies: seq<Reply>)
      returns (raised: bool, time: Option<int>, ghost n: nat, ghost steps: seq<Step>)
      requires pc == Enriching(origin, model, 0) && RepliesOk(kafka.log, replies)
      modifies this`pc, this`hist, this`transferBatch, redis
      ensures Took(old(Abs()), steps)
      ensures LookedUp(replies, model.block, n, raised, time)
      ensures pc == if raised then Stopping else Check
      ensures transferBatch == old(transferBatch) + Found(origin, model, time)
    {
      ghost var s0 := Abs();
      raised, time, steps := ReadReply(origin, model, 0, ReplyAt(replies, 0));
      var retries := 0;
      while !raised && time.None? && retries < MAX_RETRIES
        invariant 0 <= retries && ReadUpTo(s0, origin, model, replies, retries, raised, time, steps)
        decreases MAX_RETRIES - retries
      {
        raised, time, steps := ReadAgain(s0, origin, model, replies, retries, steps);
        retries := retries + 1;
      }
      n := retries;
      if !raised && time.None? {
        OneMoreMiss(replies, model.block, n);
        n := n + 1;
      }
    }

    // ---- the main loop -------------------------------------------------------------------------------

    static function PlaceOf(next: Next): Pc {
      match next
      case Continue => Head
      case Escape => Stopping
      case Test => Check
      case CacheTime(number, time) => Caching(number, time)
      case Enrich(origin, model) => Enriching(origin, model, 0)
    }

    /** A message its model rejects: ValidationError, and on to the next poll without the size test. */
    static predicate Rejected(m: Message) { m.Malformed? || (m.Transaction? && m.tx.stamp.Absent?) }

    static predicate NeedsTime(m: Message) { m.TokenTransfer? && m.transfer.stamp.Absent? }

    static predicate ReadsStamped(b: TransferBody, t: Transfer) {
      t == Transfer(b.hash, b.logIndex, t.timestamp, b.token, b.from, b.to, b.value) && (Stable(b.stamp) ==> t.timestamp == b.stamp.seconds)
    }

    /** What the batches hold after a message that Redis is not asked about. */
    static ghost predicate Appended(m: Message, o: Origin, before: Held, after: Held) {
      && after.cache == before.cache
      && (if m.Transaction? && !Rejected(m) then exists tx :: Reads(m.tx, tx) && after.txs == before.txs + [Buffered(o, tx)]
          else after.txs == before.txs)
      && (if m.TokenTransfer? && !NeedsTime(m)
          then exists t :: ReadsStamped(m.transfer, t) && after.transfers == before.transfers + [Buffered(o, t)]
          else after.transfers == before.transfers)
    }

    /** Where the dispatch goes. */
    static predicate GoesTo(m: Message, o: Origin, next: Next) {
      && (next.Continue? <==> Rejected(m))
      && (next.Escape? <==> m.NotAnObject?)
      && (next.CacheTime? <==> m.BlockHeader?) && (m.BlockHeader? ==> next == CacheTime(m.number, m.time))
      && (next.Enrich? <==> NeedsTime(m)) && (NeedsTime(m) ==> next == Enrich(o, DecodeTransfer(m.transfer, 0)))
    }

    /** The reads of a lookup: `n` find nothing, and the next, if it is one of the first eleven, finds `time` or raises. */
    static ghost predicate LookedUp(replies: seq<Reply>, block: int, n: nat, raised: bool, time: Option<int>) {
      && Misses(replies, block, n)
      && if n <= 10 then (raised || time.Some?) && Gives(ReplyAt(replies, n), block, raised, time)
         else n == 11 && !raised && time == None
    }

    /** And what it leaves in the batch. */
    static ghost predicate FoundOrNot(o: Origin, m: TransferModel, replies: seq<Reply>, raised: bool, before: Held, after: Held) {
      after.txs == before.txs &&
      exists n, time :: LookedUp(replies, m.block, n, raised, time) && after.transfers == before.transfers + Found(o, m, time)
    }

    /** What one poll makes of the message it brings, Redis included. */
    static ghost predicate Handled(m: Message, o: Origin, input: Input, next: Next, before: Held, after: Held) {
      if m.BlockHeader? then
        && after == (if input.setexRaises then before else before.(cache := before.cache[m.number := m.time]))
        && next == if input.setexRaises then Escape else Test
      else if NeedsTime(m) then
        (next == Escape || next == Test) && FoundOrNot(o, DecodeTransfer(m.transfer, 0), input.replies, next == Escape, before, after)
      else
        Appended(m, o, before, after) && next == if Rejected(m) then Continue else if m.NotAnObject? then Escape else Test
    }

    /** What the Redis call makes of it. */
    static ghost predicate Asked(to: Next, input: Input, next: Next, before: Held, after: Held) {
      match to
      case CacheTime(number, time) =>
        && after == (if input.setexRaises then before else before.(cache := before.cache[number := time]))
        && next == if input.setexRaises then Escape else Test
      case Enrich(o, model) =>
        (next == Escape || next == Test) && FoundOrNot(o, model, input.replies, next == Escape, before, after)
      case _ => next == to && after == before
    }

    static lemma DispatchThenAsk(m: Message, o: Origin, input: Input, to: Next, next: Next, a: Held, b: Held, c: Held)
      requires Appended(m, o, a, b) && GoesTo(m, o, to) && Asked(to, input, next, b, c)
      ensures Handled(m, o, input, next, a, c)
    {
    }

    ghost function HeldNow(): Held
      reads this, redis
    {
      Held(txBatch, transferBatch, redis.cache)
    }

    /** The message a poll brings, if it brings one. */
    ghost function Incoming(input: Input): Option<Message>
      reads kafka
      requires kafka.position.Keys == kafka.log.Keys
    {
      if input.poll.Deliver? && input.poll.part in kafka.log && kafka.position[input.poll.part] < |kafka.log[input.poll.part]|
      then Some(kafka.log[input.poll.part][kafka.position[input.poll.part]])
      else None
    }

    ghost function IncomingAt(input: Input): Origin
      reads kafka
      requires kafka.position.Keys == kafka.log.Keys && Incoming(input).Some?
    {
      Origin(input.poll.part, kafka.position[input.poll.part])
    }

    /** The dispatch on a message, up to the point where Redis is asked. */
    method Dispatch(origin: Origin, message: Message, now: int) returns (next: Next)
      requires pc == Head
      modifies this`pc, this`txBatch, this`transferBatch
      ensures Abs() == Receive(old(Abs()), origin, message, now) && pc == PlaceOf(next)
      ensures Appended(message, origin, old(HeldNow()), HeldNow()) && GoesTo(message, origin, next)
    {
      match message {
        case Tombstone => next := Test;
        case Unparseable => next := Test;
        case NotAnObject => next := Escape;
        case Malformed => next := Continue;
        case BlockHeader(number, time) => next := CacheTime(number, time);
        case Transaction(body) =>
          var decoded := DecodeTx(body, now);
          if decoded.None? {
            next := Continue;
          } else {
            assert Reads(body, decoded.value);
            txBatch := txBatch + [Buffered(origin, decoded.value)];
            next := Test;
          }
        case TokenTransfer(body) =>
          var model := DecodeTransfer(body, now);
          if model.timestamp.Some? {
            assert ReadsStamped(body, Stamped(model, model.timestamp.value));
            transferBatch := transferBatch + [Buffered(origin, Stamped(model, model.timestamp.value))];
            next := Test;
          } else {
            next := Enrich(origin, model);
          }
      }
      pc := PlaceOf(next);
    }

    /** One poll that brings a message, and the dispatch on it. */
    method Take(part: Part, now: int) returns (next: Next, ghost steps: seq<Step>)
      requires pc == Head && running && kafka.position.Keys == kafka.log.Keys
      requires part in kafka.log && kafka.position[part] < |kafka.log[part]|
      modifies this`pc, this`txBatch, this`transferBatch, kafka`position
      ensures Took(old(Abs()), steps)
      ensures kafka.position.Keys == kafka.log.Keys
      ensures pc == PlaceOf(next)
      ensures var o := Origin(part, old(kafka.position)[part]); var m := kafka.log[part][o.offset];
        Appended(m, o, old(HeldNow()), HeldNow()) && GoesTo(m, o, next)
    {
      ghost var s0 := Abs();
      PollRuns(kafka.log, s0, part, now);
      steps := [PollMessage(part, now)];
      var polled := kafka.Poll(Deliver(part));
      assert Abs() == Advanced(s0, part);
      next := Dispatch(polled.origin, polled.message, now);
    }

    /** The poll, and everything up to the size test; `next` is Continue, Escape or Test. */
    method PollOnce(input: Input) returns (next: Next, ghost steps: seq<Step>)
      requires pc == Head && running && kafka.position.Keys == kafka.log.Keys && RepliesOk(kafka.log, input.replies)
      modifies this`pc, this`hist, this`txBatch, this`transferBatch, kafka`position, redis
      ensures Took(old(Abs()), steps)
      ensures kafka.position.Keys == kafka.log.Keys
      ensures pc == PlaceOf(next) && !next.CacheTime? && !next.Enrich?
      ensures old(Incoming(input)).None? ==> HeldNow() == old(HeldNow()) && next == if input.poll.Fails? then Escape else Test
      ensures old(Incoming(input)).Some? ==>
        Handled(old(Incoming(input)).value, old(IncomingAt(input)), input, next, old(HeldNow()), HeldNow())
    {
      ghost var s0 := Abs();
      if input.poll.Fails? {
        steps := Move(PollRaises, Stopping);
        return Escape, steps;
      }
      if input.poll.Idle? || input.poll.part !in kafka.log || kafka.position[input.poll.part] >= |kafka.log[input.poll.part]| {
        steps := Move(PollIdle, Check);
        return Test, steps;
      }
      ghost var more;
      ghost var m, o, a := Incoming(input).value, IncomingAt(input), HeldNow();
      var to;
      to, steps := Take(input.poll.part, input.now);
      ghost var b := HeldNow();
      next, more := AskRedis(to, input);
      Chain(kafka.log, s0, steps, more);
      steps := steps + more;
      DispatchThenAsk(m, o, input, to, next, a, b, HeldNow());
    }

    /** The Redis call a block or an unstamped transfer needs; it turns `next` into Escape or Test. */
    method AskRedis(after: Next, input: Input) returns (next: Next, ghost steps: seq<Step>)
      requires pc == PlaceOf(after) && RepliesOk(kafka.log, input.replies)
      modifies this`pc, this`hist, this`transferBatch, redis
      ensures Took(old(Abs()), steps)
      ensures pc == PlaceOf(next) && !next.CacheTime? && !next.Enrich?
      ensures Asked(after, input, next, old(HeldNow()), HeldNow())
    {
      steps := [];
      next := after;
      var raised;
      match after
      case CacheTime(number, time) =>
        raised, steps := CacheBlock(number, time, input.setexRaises);
        next := if raised then Escape else Test;
      case Enrich(origin, model) =>
        var time;
        ghost var n;
        raised, time, n, steps := EnrichTokenTimestamp(origin, model, input.replies);
        assert LookedUp(input.replies, model.block, n, raised, time);
        next := if raised then Escape else Test;
      case _ =>
    }

    method CacheBlock(number: int, time: int, raises: bool) returns (raised: bool, ghost steps: seq<Step>)
      requires pc == Caching(number, time)
      modifies this`pc, redis
      ensures Took(old(Abs()), steps)
      ensures raised == raises && pc == if raised then Stopping else Check
      ensures redis.cache == if raises then old(redis.cache) else old(redis.cache)[number := time]
    {
      ghost var s0 := Abs();
      Single(kafka.log, s0, CacheReply(raises));
      steps := [CacheReply(raises)];
      raised := redis.CacheBlockTimestamp(number, time, raises);
      pc := if raised then Stopping else Check;
    }

    /** A step with no effect but on the place in the program. */
    method Move(ghost step: Step, ghost to: Pc) returns (ghost steps: seq<Step>)
      requires Enabled(kafka.log, Abs(), step) && Apply(kafka.log, Abs(), step) == At(Abs(), to)
      modifies this`pc
      ensures Took(old(Abs()), steps)
      ensures pc == to
    {
      ghost var s0 := Abs();
      Single(kafka.log, s0, step);
      steps := [step];
      pc := to;
    }

    method TakeSignal() returns (ghost steps: seq<Step>)
      modifies this`running
      ensures Took(old(Abs()), steps)
      ensures !running
    {
      ghost var s0 := Abs();
      Single(kafka.log, s0, Signal);
      steps := [Signal];
      running := false;
    }

    /** The size test after a message: from a hundred records on the batches are flushed, and what the flush raises is logged. */
    method TestSize(script: FlushScript) returns (ghost steps: seq<Step>)
      requires pc == Check
      modifies this`pc, this`hist, this`txBatch, this`transferBatch, db, kafka`requested, producer
      ensures Took(old(Abs()), steps) && pc == Head
      ensures db.borrowed == old(db.borrowed)
      ensures Tested(old(Abs()), old(producer.View()), script)
    {
      if |txBatch| + |transferBatch| >= BATCH_SIZE {
        var raised;
        raised, steps := FlushBatches(false, script);
      } else {
        steps := Move(CheckSize(true), Head);
      }
    }

    /** What the test leaves: everything as it was, or the batches empty and the position asked to be committed. */
    ghost predicate Tested(from: State, o: Outbox, script: FlushScript)
      reads this, db, kafka
    {
      if |from.proc.txBatch| + |from.proc.transferBatch| >= 100 && !FlushFails(from.proc.txBatch, from.proc.transferBatch, o, script)
      then Emptied(from)
      else txBatch == from.proc.txBatch && transferBatch == from.proc.transferBatch && kafka.requested == from.store.requested
    }

    ghost predicate Emptied(from: State)
      reads this, db, kafka
    {
      && txBatch == [] && transferBatch == [] && kafka.requested == from.store.requested + {from.proc.position}
      && db.txs == InsertIgnore(from.store.txs, TxValues(from.proc.txBatch))
      && db.transfers == InsertIgnore(from.store.transfers, TransferValues(from.proc.transferBatch))
    }

    /** The body of the while loop. */
    method Iterate(input: Input) returns (escaped: bool, ghost steps: seq<Step>)
      requires pc == Head && running && kafka.position.Keys == kafka.log.Keys && RepliesOk(kafka.log, input.replies)
      modifies this`pc, this`hist, this`txBatch, this`transferBatch, db, kafka`position, kafka`requested, producer, redis
      ensures Took(old(Abs()), steps)
      ensures kafka.position.Keys == kafka.log.Keys && db.borrowed == old(db.borrowed)
      ensures pc == if escaped then Stopping else Head
    {
      ghost var s0 := Abs();
      var next;
      next, steps := PollOnce(input);
      if !next.Test? { return next.Escape?, steps; }
      ghost var more := TestSize(input.flush);
      Chain(kafka.log, s0, steps, more);
      return false, steps + more;
    }

    /** The producer's close: callbacks run in its flush, and what that raises is logged. */
    method CloseProducer(acks: seq<Ack>) returns (ghost steps: seq<Step>)
      requires pc == Closing
      modifies this`pc, producer
      ensures Took(old(Abs()), steps)
      ensures pc == Stopped
    {
      ghost var s0 := Abs();
      steps := CloseRuns(kafka.log, s0, acks);
      var raised := producer.Flush(acks);
      pc := Stopped;
    }

    /** main's finally block. */
    method Shutdown(last: FlushScript, closing: seq<Ack>) returns (ghost steps: seq<Step>)
      requires pc == Stopping
      modifies this`pc, this`hist, this`txBatch, this`transferBatch, db, kafka`requested, producer
      ensures Took(old(Abs()), steps)
      ensures pc == Stopped && db.borrowed == old(db.borrowed)
      ensures !FlushFails(old(txBatch), old(transferBatch), old(producer.View()), last) && (old(txBatch) != [] || old(transferBatch) != []) ==>
        Emptied(old(Abs()))
    {
      ghost var s0 := Abs();
      ghost var more;
      if txBatch != [] || transferBatch != [] {
        var raised;
        raised, steps := FlushBatches(true, last);
      } else {
        steps := Move(BeginShutdown(true), Closing);
      }
      more := CloseProducer(closing);
      Chain(kafka.log, s0, steps, more);
      steps := steps + more;
    }

    /** One turn, and the signal that may come during it. */
    method TakeTurn(input: Input) returns (escaped: bool, ghost steps: seq<Step>)
      requires pc == Head && running && kafka.position.Keys == kafka.log.Keys && RepliesOk(kafka.log, input.replies)
      modifies this`pc, this`hist, this`txBatch, this`transferBatch, this`running, db, kafka`position, kafka`requested, producer, redis
      ensures Took(old(Abs()), steps)
      ensures kafka.position.Keys == kafka.log.Keys && db.borrowed == old(db.borrowed)
      ensures pc == (if escaped then Stopping else Head) && running == !input.signal
    {
      ghost var s0 := Abs();
      escaped, steps := Iterate(input);
      if input.signal {
        ghost var more := TakeSignal();
        Chain(kafka.log, s0, steps, more);
        steps := steps + more;
      }
    }

    /** From the end of the loop to the end of the process. */
    method LeaveAndShutDown(escaped: bool, last: FlushScript, closing: seq<Ack>) returns (ghost steps: seq<Step>)
      requires if escaped then pc == Stopping else pc == Head && !running
      modifies this`pc, this`hist, this`txBatch, this`transferBatch, db, kafka`requested, producer
      ensures Took(old(Abs()), steps)
      ensures pc == Stopped && db.borrowed == old(db.borrowed)
    {
      ghost var s0 := Abs();
      steps := [];
      if !escaped { steps := Move(LeaveLoop, Stopping); }
      ghost var more := Shutdown(last, closing);
      Chain(kafka.log, s0, steps, more);
      steps := steps + more;
    }

    /** No signal comes in the first `n` turns. */
    static predicate NoSignal(inputs: seq<Input>, n: nat)
      requires n <= |inputs|
    {
      n == 0 || (NoSignal(inputs, n - 1) && !inputs[n - 1].signal)
    }

    static lemma {:induction false} NoSignalIff(inputs: seq<Input>, n: nat)
      requires n <= |inputs|
      ensures NoSignal(inputs, n) <==> forall i :: 0 <= i < n ==> !inputs[i].signal
    {
      if n > 0 { NoSignalIff(inputs, n - 1); }
    }

    /** `steps` has led from `from` to the loop head, or out of the loop. */
    ghost predicate InLoop(from: State, escaped: bool, borrowed: nat, steps: seq<Step>)
      reads this, db, kafka, producer, redis
    {
      && Took(from, steps)
      && kafka.position.Keys == kafka.log.Keys && db.borrowed == borrowed
      && pc == if escaped then Stopping else Head
    }

    method AnotherTurn(ghost from: State, ghost borrowed: nat, input: Input, ghost sofar: seq<Step>)
      returns (escaped: bool, ghost steps: seq<Step>)
      requires InLoop(from, false, borrowed, sofar) && running && RepliesOk(kafka.log, input.replies)
      modifies this`pc, this`hist, this`txBatch, this`transferBatch, this`running, db, kafka`position, kafka`requested, producer, redis
      ensures InLoop(from, escaped, borrowed, steps) && running == !input.signal
    {
      ghost var more;
      escaped, more := TakeTurn(input);
      Chain(kafka.log, from, sofar, more);
      steps := sofar + more;
    }

    /** The loop over as many turns as `inputs` lasts, or until it is left. */
    method Loop(inputs: seq<Input>) returns (escaped: bool, ghost steps: seq<Step>)
      requires pc == Head && running && kafka.position.Keys == kafka.log.Keys
      requires forall i :: 0 <= i < |inputs| ==> RepliesOk(kafka.log, inputs[i].replies)
      modifies this`pc, this`hist, this`txBatch, this`transferBatch, this`running, db, kafka`position, kafka`requested, producer, redis
      ensures Took(old(Abs()), steps)
      ensures pc == (if escaped then Stopping else Head) && db.borrowed == old(db.borrowed)
      ensures running && !escaped ==> NoSignal(inputs, |inputs|)
    {
      ghost var s0, borrowed := Abs(), db.borrowed;
      steps := [];
      escaped := false;
      var i := 0;
      while running && !escaped && i < |inputs|
        invariant 0 <= i <= |inputs| && InLoop(s0, escaped, borrowed, steps)
        invariant running ==> NoSignal(inputs, i)
      {
        escaped, steps := AnotherTurn(s0, borrowed, inputs[i], steps);
        i := i + 1;
      }
    }

    /** main: `finished` when the process came to its end, as it does after a signal. */
    method MainLoop(inputs: seq<Input>, last: FlushScript, closing: seq<Ack>) returns (finished: bool, ghost steps: seq<Step>)
      requires pc == Head && running && kafka.position.Keys == kafka.log.Keys
      requires forall i :: 0 <= i < |inputs| ==> RepliesOk(kafka.log, inputs[i].replies)
      modifies this`pc, this`hist, this`txBatch, this`transferBatch, this`running, db, kafka`position, kafka`requested, producer, redis
      ensures Took(old(Abs()), steps)
      ensures pc == (if finished then Stopped else Head) && db.borrowed == old(db.borrowed)
      ensures !finished ==> NoSignal(inputs, |inputs|)
    {
      ghost var s0 := Abs();
      var escaped;
      escaped, steps := Loop(inputs);
      finished := !running || escaped;
      if finished {
        ghost var more := LeaveAndShutDown(escaped, last, closing);
        Chain(kafka.log, s0, steps, more);
        steps := steps + more;
      }
    }
  }

  /**
   A process started on what is left of any reachable state - the first on empty tables, a later one after the death of
   its predecessor at any step - is itself, whatever its inputs, in a reachable state.
   */
  method Start(log: Log, store: Store, ghost before: State, inputs: seq<Input>, last: FlushScript, closing: seq<Ack>)
    returns (c: Consumer, finished: bool)
    requires Guarantees.Reachable(log, before) && store == before.store
    requires forall i :: 0 <= i < |inputs| ==> RepliesOk(log, inputs[i].replies)
    ensures fresh(c) && c.kafka.log == log && Guarantees.Reachable(log, c.Abs()) && c.db.borrowed == 0
    ensures (exists i :: 0 <= i < |inputs| && inputs[i].signal) ==> finished
  {
    Consumer.NoSignalIff(inputs, |inputs|);
    c := new Consumer(log, store, before);
    Guarantees.StepReaches(log, before, Crash);
    Guarantees.ReachableKeeps(log, c.Abs());
    ghost var s0 := c.Abs();
    ghost var steps;
    finished, steps := c.MainLoop(inputs, last, closing);
    Guarantees.RunReaches(log, s0, steps);
  }

  /** What can still happen to the store with no process running; a step that cannot be taken leaves it as it is. */
  function Befalls(log: Log, store: Store, step: Step): Store {
    match step
    case OffsetLands(r) => if r in store.requested then store.(committed := r) else store
    case AlertArrives(a) => if a in store.handed then store.(delivered := store.delivered + {a}) else store
    case CacheChanges(c) => if forall n :: n in c ==> IsBlockTime(log, n, c[n]) then store.(cache := c) else store
    case _ => store
  }

  function AllBefall(log: Log, store: Store, steps: seq<Step>): Store {
    if steps == [] then store
    else Befalls(log, AllBefall(log, store, steps[..|steps| - 1]), steps[|steps| - 1])
  }

  lemma Befallen(log: Log, before: State, step: Step) returns (after: State)
    requires Guarantees.Reachable(log, before)
    ensures Guarantees.Reachable(log, after) && after.store == Befalls(log, before.store, step)
    ensures step.OffsetLands? && step.offsets in before.store.requested ==> after.store.committed == step.offsets
    ensures step.AlertArrives? && step.alert in before.store.handed ==> step.alert in after.store.delivered
    ensures step.CacheChanges? && TimesOk(log, step.cache) ==> after.store.cache == step.cache
  {
    after := before;
    if (step.OffsetLands? || step.AlertArrives? || step.CacheChanges?) && Enabled(log, before, step) {
      Guarantees.StepReaches(log, before, step);
      after := Apply(log, before, step);
    }
  }

  /** Between two processes: commits and alerts that were on their way arrive, in any number and order, and the cache changes. */
  method Wait(log: Log, store: Store, ghost before: State, meanwhile: seq<Step>) returns (left: Store, ghost after: State)
    requires Guarantees.Reachable(log, before) && store == before.store
    ensures left == AllBefall(log, store, meanwhile)
    ensures Guarantees.Reachable(log, after) && after.store == left
  {
    left, after := store, before;
    for i := 0 to |meanwhile|
      invariant Guarantees.Reachable(log, after) && left == after.store == AllBefall(log, store, meanwhile[..i])
    {
      assert meanwhile[..i + 1][..i] == meanwhile[..i];
      after := Befallen(log, after, meanwhile[i]);
      left := Befalls(log, left, meanwhile[i]);
    }
    assert meanwhile[..|meanwhile|] == meanwhile;
  }

  /** One process: what happens before its start, and its inputs. */
  datatype Life = Life(meanwhile: seq<Step>, inputs: seq<Input>, last: FlushScript, closing: seq<Ack>)

  /**
   Any number of processes, one after the other, each killed or ended wherever its inputs leave it, and each started on
   the offsets, tables, alerts and cache that are there by then.
   */
  method Lives(log: Log, lives: seq<Life>) returns (c: Consumer)
    requires forall l, i :: 0 <= l < |lives| && 0 <= i < |lives[l].inputs| ==> RepliesOk(log, lives[l].inputs[i].replies)
    ensures c.kafka.log == log && Guarantees.Reachable(log, c.Abs()) && c.db.borrowed == 0
  {
    Guarantees.InitReachable(log);
    c := new Consumer(log, Init(log).store, Init(log));
    Guarantees.StepReaches(log, Init(log), Crash);
    for l := 0 to |lives|
      invariant c.kafka.log == log && Guarantees.Reachable(log, c.Abs()) && c.db.borrowed == 0
    {
      var store := Store(c.db.txs, c.db.transfers, c.kafka.committed, c.kafka.requested,
                         c.producer.handed, c.producer.delivered, c.redis.cache);
      ghost var before := c.Abs();
      store, before := Wait(log, store, before, lives[l].meanwhile);
      var finished;
      c, finished := Start(log, store, before, lives[l].inputs, lives[l].last, lives[l].closing);
    }
  }
}
