/**
 The streaming consumer as a state machine (src/consumer/main.py, kafka_client.py, redis_client.py).

 One step is one effect on the outside world or one local branch, so that a crash can fall between
 any two of them.  Everything the environment decides - whether a call fails, what a poll returns,
 when an asynchronous offset commit lands - is an argument of the step.
 */
module Protocol {
  import opened Wrappers
  import opened Messages
  import opened Tables

  const BATCH_SIZE: nat := 100
  const WHALE_THRESHOLD_WEI: int := 100_000_000_000_000_000_000
  const MAX_RETRIES: nat := 10

  datatype Topic = Blocks | Transactions | TokenTransfers
  datatype Part = Part(topic: Topic, index: nat)

  type Log = map<Part, seq<Message>>
  type Offsets = map<Part, nat>

  datatype Origin = Origin(part: Part, offset: nat)

  /** A buffered model, with the place it was read from.  No branch of the consumer looks at the place. */
  datatype Buffered<T> = Buffered(origin: Origin, item: T)

  /** What survives a crash of the consumer. */
  datatype Store = Store(
    txs: map<TxKey, Tx>,
    transfers: map<TransferKey, Transfer>,
    committed: Offsets,          // the durable group offsets
    requested: set<Offsets>,     // positions passed to commit(); any of them may become durable later
    handed: set<Tx>,             // alerts given to the producer library; any of them may arrive later
    delivered: set<Tx>,          // alerts in the whale-alerts topic
    cache: map<int, int>)        // Redis: block number to block time

  datatype Pc =
    | Head                                                         // the while test
    | Caching(number: int, time: int)                              // before setex
    | Enriching(origin: Origin, model: TransferModel, retries: nat) // before a Redis get
    | Check                                                        // the batch size test
    | Borrowed(shutdown: bool)                                     // in flush_batches, connection held
    | Sending(next: nat, shutdown: bool)                           // rows committed, publishing alerts
    | Draining(shutdown: bool)                                     // in the producer's flush
    | Alerted(shutdown: bool)                                      // before the offset commit
    | Requested(shutdown: bool)                                    // before the batches are cleared
    | Stopping                                                     // in main's finally block
    | Closing                                                      // in the producer's close
    | Stopped

  datatype Proc = Proc(
    position: Offsets,
    txBatch: seq<Buffered<Tx>>,
    transferBatch: seq<Buffered<Transfer>>,
    queue: seq<Tx>,              // sends whose delivery callback has not run
    error: bool,                 // the producer's _error is set
    running: bool,
    pc: Pc)

  /** History, read by no step. */
  datatype Hist = Hist(
    landed: Offsets,             // per partition, the furthest position whose batch reached the tables
    flushed: Offsets,            // the position at the last completed flush or restart
    skipped: set<Origin>,        // transfers given up for want of a block time
    dropped: set<Origin>,        // transfers whose Redis lookup raised
    missed: set<Origin>,         // of both, those since the last completed flush or restart
    failures: nat)               // failed flushes since the last success or restart

  datatype State = State(store: Store, proc: Proc, hist: Hist)

  datatype DbOutcome = Landed | Lost | LandedButRaised

  datatype Step =
    // the environment
    | OffsetLands(offsets: Offsets)
    | AlertArrives(alert: Tx)
    | CacheChanges(cache: map<int, int>)
    | Signal
    | Crash                      // at any point; a new process starts from the committed offsets
    // the consumer
    | PollIdle
    | PollRaises
    | PollMessage(part: Part, now: int)
    | CacheReply(raised: bool)
    | LookupReply(raised: bool)
    | CheckSize(connected: bool)
    | LeaveLoop
    | BeginShutdown(connected: bool)
    | DbCommit(outcome: DbOutcome)
    | Send(accepted: bool)
    | Callback(index: nat, ok: bool)
    | Drain
    | RequestOffsets(raised: bool)
    | ClearBatches
    | Close

  predicate IsBlockTime(log: Log, number: int, time: int) {
    exists p, o: nat :: p in log && o < |log[p]| && log[p][o] == BlockHeader(number, time)
  }

  function Whales(batch: seq<Buffered<Tx>>): seq<Tx> {
    if batch == [] then []
    else
      var tx := batch[|batch| - 1].item;
      Whales(batch[..|batch| - 1]) + if tx.value >= WHALE_THRESHOLD_WEI then [tx] else []
  }

  function TxValues(batch: seq<Buffered<Tx>>): seq<(TxKey, Tx)> {
    seq(|batch|, i requires 0 <= i < |batch| => (KeyOf(batch[i].item), batch[i].item))
  }

  function TransferValues(batch: seq<Buffered<Transfer>>): seq<(TransferKey, Transfer)> {
    seq(|batch|, i requires 0 <= i < |batch| => (TransferKeyOf(batch[i].item), batch[i].item))
  }

  function Zero(log: Log): Offsets { map p | p in log :: 0 }

  function Furthest(a: Offsets, b: Offsets): Offsets {
    map p | p in a && p in b :: if a[p] < b[p] then b[p] else a[p]
  }

  function Fresh(store: Store): Proc {
    Proc(store.committed, [], [], [], false, true, Head)
  }

  function Init(log: Log): State {
    var store := Store(map[], map[], Zero(log), {}, {}, {}, map[]);
    State(store, Fresh(store), Hist(Zero(log), Zero(log), {}, {}, {}, 0))
  }

  predicate InProducer(pc: Pc) { pc.Sending? || pc.Draining? || pc.Closing? }

  predicate Enabled(log: Log, s: State, step: Step) {
    var p := s.proc;
    match step
    case OffsetLands(r) => r in s.store.requested
    case AlertArrives(a) => a in s.store.handed
    case CacheChanges(c) => forall n :: n in c ==> IsBlockTime(log, n, c[n])
    case Signal => true
    case Crash => true
    case PollIdle => p.pc.Head? && p.running
    case PollRaises => p.pc.Head? && p.running
    case PollMessage(part, _) =>
      p.pc.Head? && p.running && part in log && part in p.position && p.position[part] < |log[part]|
    case CacheReply(_) => p.pc.Caching?
    case LookupReply(_) => p.pc.Enriching?
    case CheckSize(_) => p.pc.Check?
    case LeaveLoop => p.pc.Head? && !p.running
    case BeginShutdown(_) => p.pc.Stopping?
    case DbCommit(_) => p.pc.Borrowed?
    case Send(_) => p.pc.Sending? && p.pc.next < |Whales(p.txBatch)|
    case Callback(i, _) => InProducer(p.pc) && i < |p.queue|
    case Drain => p.pc.Draining?
    case RequestOffsets(_) => p.pc.Alerted?
    case ClearBatches => p.pc.Requested?
    case Close => p.pc.Closing?
  }

  function At(s: State, pc: Pc): State { s.(proc := s.proc.(pc := pc)) }

  /** An exception left flush_batches; both of its callers log it and go on with the batches kept. */
  function FlushRaised(s: State, shutdown: bool): State {
    At(s, if shutdown then Closing else Head).(hist := s.hist.(failures := s.hist.failures + 1))
  }

  function BufferTx(s: State, o: Origin, tx: Tx): State {
    s.(proc := s.proc.(txBatch := s.proc.txBatch + [Buffered(o, tx)], pc := Check))
  }

  function BufferTransfer(s: State, o: Origin, t: Transfer): State {
    s.(proc := s.proc.(transferBatch := s.proc.transferBatch + [Buffered(o, t)], pc := Check))
  }

  /** One loop iteration up to the point where Redis is asked, for the message at `o`. */
  function Receive(s: State, o: Origin, m: Message, now: int): State {
    match m
    case Tombstone => At(s, Check)
    case Unparseable => At(s, Check)
    case NotAnObject => At(s, Stopping)      // TypeError, which the loop does not catch
    case Malformed => At(s, Head)            // ValidationError, continue
    case BlockHeader(n, t) => At(s, Caching(n, t))
    case Transaction(b) =>
      (match DecodeTx(b, now)
       case None => At(s, Head)
       case Some(tx) => BufferTx(s, o, tx))
    case TokenTransfer(b) =>
      var t := DecodeTransfer(b, now);
      if t.timestamp.Some? then BufferTransfer(s, o, Stamped(t, t.timestamp.value))
      else At(s, Enriching(o, t, 0))
  }

  /** One Redis get of enrich_token_timestamp and what follows it. */
  function Lookup(s: State, raised: bool): State
    requires s.proc.pc.Enriching?
  {
    var Enriching(o, m, retries) := s.proc.pc;
    if raised then
      At(s, Stopping).(hist := s.hist.(dropped := s.hist.dropped + {o}, missed := s.hist.missed + {o}))
    else if m.block in s.store.cache then
      BufferTransfer(s, o, Stamped(m, s.store.cache[m.block]))
    else if retries < MAX_RETRIES then
      At(s, Enriching(o, m, retries + 1))
    else
      At(s, Check).(hist := s.hist.(skipped := s.hist.skipped + {o}, missed := s.hist.missed + {o}))
  }

  function LandBatches(s: State): State {
    s.(store := s.store.(txs := InsertIgnore(s.store.txs, TxValues(s.proc.txBatch)),
                         transfers := InsertIgnore(s.store.transfers, TransferValues(s.proc.transferBatch))),
       hist := s.hist.(landed := Furthest(s.hist.landed, s.proc.position)))
  }

  function Commit(s: State, outcome: DbOutcome, shutdown: bool): State {
    match outcome
    case Lost => FlushRaised(s, shutdown)
    case LandedButRaised => FlushRaised(LandBatches(s), shutdown)
    case Landed => At(LandBatches(s), if Whales(s.proc.txBatch) == [] then Alerted(shutdown) else Sending(0, shutdown))
  }

  function SendNext(s: State, accepted: bool): State
    requires s.proc.pc.Sending? && s.proc.pc.next < |Whales(s.proc.txBatch)|
  {
    var Sending(next, shutdown) := s.proc.pc;
    var w := Whales(s.proc.txBatch)[next];
    if !accepted then FlushRaised(s, shutdown)
    else
      var pc := if next + 1 < |Whales(s.proc.txBatch)| then Sending(next + 1, shutdown) else Draining(shutdown);
      s.(store := s.store.(handed := s.store.handed + {w}), proc := s.proc.(queue := s.proc.queue + [w], pc := pc))
  }

  /** _on_delivery for one outstanding send. */
  function OnDelivery(s: State, index: nat, ok: bool): State
    requires index < |s.proc.queue|
  {
    var a := s.proc.queue[index];
    var p := s.proc.(queue := s.proc.queue[..index] + s.proc.queue[index + 1..]);
    if ok then s.(store := s.store.(delivered := s.store.delivered + {a}), proc := p)
    else s.(proc := p.(error := true))
  }

  /** KafkaProducerClient.flush, once the library's own flush has returned. */
  function DrainEnd(s: State, shutdown: bool): State {
    if s.proc.queue != [] then FlushRaised(s, shutdown)
    else if s.proc.error then FlushRaised(s.(proc := s.proc.(error := false)), shutdown)
    else At(s, Alerted(shutdown))
  }

  /** The flush in the producer's close; what it raises is logged and goes no further. */
  function CloseEnd(s: State): State {
    s.(proc := s.proc.(error := s.proc.queue != [] && s.proc.error, pc := Stopped))
  }

  function Apply(log: Log, s: State, step: Step): State
    requires Enabled(log, s, step)
  {
    var p := s.proc;
    match step
    case OffsetLands(r) => s.(store := s.store.(committed := r))
    case AlertArrives(a) => s.(store := s.store.(delivered := s.store.delivered + {a}))
    case CacheChanges(c) => s.(store := s.store.(cache := c))
    case Signal => s.(proc := p.(running := false))
    case Crash => State(s.store, Fresh(s.store), s.hist.(flushed := s.store.committed, missed := {}, failures := 0))
    case PollIdle => At(s, Check)
    case PollRaises => At(s, Stopping)
    case PollMessage(part, now) =>
      var o := p.position[part];
      Receive(s.(proc := p.(position := p.position[part := o + 1])), Origin(part, o), log[part][o], now)
    case CacheReply(raised) =>
      if raised then At(s, Stopping)
      else At(s, Check).(store := s.store.(cache := s.store.cache[p.pc.number := p.pc.time]))
    case LookupReply(raised) => Lookup(s, raised)
    case CheckSize(connected) =>
      if |p.txBatch| + |p.transferBatch| < BATCH_SIZE then At(s, Head)
      else if connected then At(s, Borrowed(false))
      else FlushRaised(s, false)
    case LeaveLoop => At(s, Stopping)
    case BeginShutdown(connected) =>
      if p.txBatch == [] && p.transferBatch == [] then At(s, Closing)
      else if connected then At(s, Borrowed(true))
      else FlushRaised(s, true)
    case DbCommit(outcome) => Commit(s, outcome, p.pc.shutdown)
    case Send(accepted) => SendNext(s, accepted)
    case Callback(i, ok) => OnDelivery(s, i, ok)
    case Drain => DrainEnd(s, p.pc.shutdown)
    case RequestOffsets(raised) =>
      if raised then FlushRaised(s, p.pc.shutdown)
      else At(s, Requested(p.pc.shutdown)).(store := s.store.(requested := s.store.requested + {p.position}))
    case ClearBatches =>
      State(s.store, p.(txBatch := [], transferBatch := [], pc := if p.pc.shutdown then Closing else Head),
            s.hist.(flushed := p.position, missed := {}, failures := 0))
    case Close => CloseEnd(s)
  }

  /** The runs: each step is possible where it is taken. */
  predicate Legal(log: Log, s: State, steps: seq<Step>)
    decreases |steps|, 0
  {
    steps == [] ||
    (var k := |steps| - 1; Legal(log, s, steps[..k]) && Enabled(log, Run(log, s, steps[..k]), steps[k]))
  }

  function Run(log: Log, s: State, steps: seq<Step>): State
    requires Legal(log, s, steps)
    decreases |steps|, 1
  {
    if steps == [] then s
    else var k := |steps| - 1; Apply(log, Run(log, s, steps[..k]), steps[k])
  }

  lemma Extend(log: Log, s: State, steps: seq<Step>, step: Step)
    requires Legal(log, s, steps) && Enabled(log, Run(log, s, steps), step)
    ensures Legal(log, s, steps + [step])
    ensures Run(log, s, steps + [step]) == Apply(log, Run(log, s, steps), step)
  {
    assert (steps + [step])[..|steps|] == steps;
  }

  lemma Single(log: Log, s: State, step: Step)
    requires Enabled(log, s, step)
    ensures Legal(log, s, [step]) && Run(log, s, [step]) == Apply(log, s, step)
  {
    Extend(log, s, [], step);
    assert [] + [step] == [step];
  }

  /** Two runs that have come to the same state take the next step alike. */
  lemma ChainOne(log: Log, s: State, front: seq<Step>, t: State, b: seq<Step>)
    requires b != [] && Legal(log, s, front) && Legal(log, t, b) && Run(log, s, front) == Run(log, t, b[..|b| - 1])
    ensures Legal(log, s, front + [b[|b| - 1]]) && Run(log, s, front + [b[|b| - 1]]) == Run(log, t, b)
  {
    Extend(log, s, front, b[|b| - 1]);
  }

  lemma {:induction false} Chain(log: Log, s: State, a: seq<Step>, b: seq<Step>)
    requires Legal(log, s, a) && Legal(log, Run(log, s, a), b)
    ensures Legal(log, s, a + b) && Run(log, s, a + b) == Run(log, Run(log, s, a), b)
  {
    if b == [] {
      assert a + b == a;
    } else {
      var k := |b| - 1;
      Chain(log, s, a, b[..k]);
      ChainOne(log, s, a + b[..k], Run(log, s, a), b);
      assert (a + b[..k]) + [b[k]] == a + b;
    }
  }
}
