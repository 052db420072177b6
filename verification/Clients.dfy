/**
 The objects the consumer talks to: src/consumer/kafka_client.py, db.py and redis_client.py.
 Whatever the far side decides - a refused call, a failed delivery - is an argument of the call.
 */
module Clients {
  import opened Wrappers
  import opened Messages
  import opened Tables
  import opened Protocol

  /** The fate of one outstanding send, as its delivery callback learns it. */
  datatype Ack = Ack(index: nat, ok: bool)

  datatype Outbox = Outbox(queue: seq<Tx>, error: bool, handed: set<Tx>, delivered: set<Tx>)

  function Acked(o: Outbox, ack: Ack): Outbox {
    if ack.index >= |o.queue| then o
    else
      var rest := o.(queue := o.queue[..ack.index] + o.queue[ack.index + 1..]);
      if ack.ok then rest.(delivered := o.delivered + {o.queue[ack.index]}) else rest.(error := true)
  }

  /** An error that a flush reports is forgotten; one that gives way to left-over sends is not. */
  function AfterFlush(o: Outbox): Outbox { if o.queue == [] && o.error then o.(error := false) else o }

  function Served(o: Outbox, acks: seq<Ack>): Outbox {
    if acks == [] then o else Acked(Served(o, acks[..|acks| - 1]), acks[|acks| - 1])
  }

  class KafkaProducerClient {
    var queue: seq<Tx>
    var error: bool
    var handed: set<Tx>
    var delivered: set<Tx>

    ghost function View(): Outbox
      reads this
    {
      Outbox(queue, error, handed, delivered)
    }

    /** A new producer; what earlier ones handed over, and what has arrived, is in the broker's hands. */
    constructor (handed: set<Tx>, delivered: set<Tx>)
      ensures View() == Outbox([], false, handed, delivered)
    {
      queue, error := [], false;
      this.handed, this.delivered := handed, delivered;
    }

    method OnDelivery(ack: Ack)
      requires ack.index < |queue|
      modifies this
      ensures View() == Acked(old(View()), ack)
    {
      if ack.ok {
        delivered := delivered + {queue[ack.index]};
      } else {
        error := true;
      }
      queue := queue[..ack.index] + queue[ack.index + 1..];
    }

    /** The library's poll: it runs the callbacks of the sends that have finished. */
    method Poll(acks: seq<Ack>)
      modifies this
      ensures View() == Served(old(View()), acks)
    {
      var i := 0;
      while i < |acks|
        invariant 0 <= i <= |acks|
        invariant View() == Served(old(View()), acks[..i])
      {
        assert acks[..i + 1][..i] == acks[..i];
        if acks[i].index < |queue| {
          OnDelivery(acks[i]);
        }
        i := i + 1;
      }
      assert acks[..i] == acks;
    }

    method SendMessage(tx: Tx, accepted: bool, acks: seq<Ack>) returns (raised: bool)
      modifies this
      ensures raised == !accepted
      ensures raised ==> View() == old(View())
      ensures !raised ==>
        View() == Served(old(View()).(queue := old(queue) + [tx], handed := old(handed) + {tx}), acks)
    {
      if !accepted { return true; }
      queue := queue + [tx];
      handed := handed + {tx};
      Poll(acks);
      return false;
    }

    /** Raises when sends are left over or when any callback since the last raise reported an error. */
    method Flush(acks: seq<Ack>) returns (raised: bool)
      modifies this
      ensures var o := Served(old(View()), acks);
        raised == (o.queue != [] || o.error) && View() == AfterFlush(o) &&
        queue == o.queue && delivered == o.delivered && handed == o.handed && error == (o.error && o.queue != [])
    {
      Poll(acks);
      if queue != [] { return true; }
      if error {
        error := false;
        return true;
      }
      return false;
    }
  }

  lemma AckKeepsTrack(o: Outbox, ack: Ack, tx: Tx)
    requires tx in o.queue || tx in o.delivered || o.error
    ensures var r := Acked(o, ack); tx in r.queue || tx in r.delivered || r.error
  {
    if tx in o.queue && ack.index < |o.queue| && o.queue[ack.index] != tx {
      var j :| 0 <= j < |o.queue| && o.queue[j] == tx;
      var q := Acked(o, ack).queue;
      assert q[if j < ack.index then j else j - 1] == tx;
    }
  }

  /** A send outstanding at a flush that returns normally has arrived. */
  lemma {:induction false} FlushReturnMeansDelivered(o: Outbox, acks: seq<Ack>, tx: Tx)
    requires tx in o.queue || tx in o.delivered || o.error
    ensures var r := Served(o, acks);
      (tx in r.queue || tx in r.delivered || r.error) && (r.queue == [] && !r.error ==> tx in r.delivered)
  {
    if acks != [] {
      var k := |acks| - 1;
      FlushReturnMeansDelivered(o, acks[..k], tx);
      AckKeepsTrack(Served(o, acks[..k]), acks[k], tx);
    }
  }

  datatype PollChoice = Idle | Fails | Deliver(part: Part)
  datatype Polled = Nothing | Raised | Received(origin: Origin, message: Message)

  class KafkaConsumerClient {
    const log: Log
    var position: Offsets
    var committed: Offsets
    var requested: set<Offsets>

    /** A new member of the group reads on from the committed offsets, with earlier commits perhaps still on their way. */
    constructor (log: Log, committed: Offsets, requested: set<Offsets>)
      ensures this.log == log && position == this.committed == committed && this.requested == requested
    {
      this.log, position, this.committed, this.requested := log, committed, committed, requested;
    }

    method Poll(choice: PollChoice) returns (r: Polled)
      requires position.Keys == log.Keys
      modifies this`position
      ensures match choice
        case Idle => r == Nothing && position == old(position)
        case Fails => r == Raised && position == old(position)
        case Deliver(p) =>
          if p in log && old(position)[p] < |log[p]| then
            r == Received(Origin(p, old(position)[p]), log[p][old(position)[p]]) &&
            position == old(position)[p := old(position)[p] + 1]
          else r == Nothing && position == old(position)
    {
      match choice
      case Idle => return Nothing;
      case Fails => return Raised;
      case Deliver(p) =>
        if p !in log || position[p] >= |log[p]| { return Nothing; }
        var o := position[p];
        position := position[p := o + 1];
        return Received(Origin(p, o), log[p][o]);
    }

    /** Asynchronous: it only asks for the current position to be made durable. */
    method Commit(raises: bool) returns (raised: bool)
      modifies this`requested
      ensures raised == raises
      ensures requested == if raised then old(requested) else old(requested) + {position}
    {
      if raises { return true; }
      requested := requested + {position};
      return false;
    }
  }

  /** A borrowed connection: the rows its open transaction has inserted so far. */
  class Connection {
    var txs: seq<(TxKey, Tx)>
    var transfers: seq<(TransferKey, Transfer)>

    constructor ()
      ensures txs == [] && transfers == []
    {
      txs, transfers := [], [];
    }
  }

  class DatabaseManager {
    var txs: map<TxKey, Tx>
    var transfers: map<TransferKey, Transfer>
    var borrowed: nat

    constructor (txs: map<TxKey, Tx>, transfers: map<TransferKey, Transfer>)
      ensures this.txs == txs && this.transfers == transfers && borrowed == 0
    {
      this.txs, this.transfers, borrowed := txs, transfers, 0;
    }

    method GetConnection(available: bool) returns (conn: Connection?)
      modifies this`borrowed
      ensures (conn != null) == available
      ensures conn != null ==> fresh(conn) && conn.txs == [] && conn.transfers == []
      ensures borrowed == old(borrowed) + if available then 1 else 0
    {
      if !available { return null; }
      conn := new Connection();
      borrowed := borrowed + 1;
    }

    method ReleaseConnection(conn: Connection)
      requires borrowed > 0
      modifies this`borrowed
      ensures borrowed == old(borrowed) - 1
    {
      borrowed := borrowed - 1;
    }

    method InsertTransactionsBatch(conn: Connection, values: seq<(TxKey, Tx)>, raises: bool) returns (raised: bool)
      modifies conn`txs
      ensures raised == (values != [] && raises)
      ensures conn.txs == if raised then old(conn.txs) else old(conn.txs) + values
    {
      if values == [] { return false; }
      if raises { return true; }
      conn.txs := conn.txs + values;
      return false;
    }

    method InsertTokenTransfersBatch(conn: Connection, values: seq<(TransferKey, Transfer)>, raises: bool) returns (raised: bool)
      modifies conn`transfers
      ensures raised == (values != [] && raises)
      ensures conn.transfers == if raised then old(conn.transfers) else old(conn.transfers) + values
    {
      if values == [] { return false; }
      if raises { return true; }
      conn.transfers := conn.transfers + values;
      return false;
    }

    /** conn.commit(): it may raise with the rows in the tables or without. */
    method Commit(conn: Connection, outcome: DbOutcome) returns (raised: bool)
      modifies this`txs, this`transfers
      ensures raised == !outcome.Landed?
      ensures txs == if outcome.Lost? then old(txs) else InsertIgnore(old(txs), conn.txs)
      ensures transfers == if outcome.Lost? then old(transfers) else InsertIgnore(old(transfers), conn.transfers)
    {
      if !outcome.Lost? {
        txs := InsertIgnore(txs, conn.txs);
        transfers := InsertIgnore(transfers, conn.transfers);
      }
      return !outcome.Landed?;
    }
  }

  class RedisManager {
    var cache: map<int, int>

    constructor (cache: map<int, int>)
      ensures this.cache == cache
    {
      this.cache := cache;
    }

    method CacheBlockTimestamp(number: int, time: int, raises: bool) returns (raised: bool)
      modifies this
      ensures raised == raises
      ensures cache == if raised then old(cache) else old(cache)[number := time]
    {
      if raises { return true; }
      cache := cache[number := time];
      return false;
    }

    method GetBlockTimestamp(number: int) returns (time: Option<int>)
      ensures time == if number in cache then Some(cache[number]) else None
    {
      return if number in cache then Some(cache[number]) else None;
    }

    /** Entries expire, and other writers add theirs, between two calls. */
    method Elapse(later: map<int, int>)
      modifies this
      ensures cache == later
    {
      cache := later;
    }
  }
}
