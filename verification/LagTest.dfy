/**
 lag_test/consumer.py: one topic read in two modes, row by row or in batches, until a failure or Ctrl-C ends the
 loop and its finally block runs.
 */
module LagTest {
  import opened Wrappers
  import opened Messages
  import opened Tables

  type Row = (TxKey, Tx)
  type Table = map<TxKey, Tx>

  /** Where in the handling of a message Ctrl-C strikes; a place a mode does not reach counts as the one before. */
  datatype Stop = AfterPoll | AfterAppend | AfterExecute | AfterStore | AfterOffsets

  /** What one turn of the loop meets. */
  datatype Event =
    | Nothing                                            // no message, or the end of a partition
    | Failure                                            // any other Kafka error: break
    | Interrupted                                        // Ctrl-C while polling
    | Poison                                             // a message that cannot be read: the exception ends the loop
    | Got(tx: Tx, stop: Option<Stop>, report: bool)      // report: three seconds have passed since the last one

  predicate Live(e: Event) { e.Nothing? || (e.Got? && e.stop.None?) }

  function Keyed(tx: Tx): Row { (KeyOf(tx), tx) }

  function Rows(events: seq<Event>): seq<Row> {
    if events == [] then []
    else
      var last := events[|events| - 1];
      Rows(events[..|events| - 1]) + if last.Got? then [Keyed(last.tx)] else []
  }

  /** The turn that ends the loop; a script that runs out is ended while polling. */
  function Ending(script: seq<Event>): (k: nat)
    ensures k <= |script| && (forall i :: 0 <= i < k ==> Live(script[i])) && (k < |script| ==> !Live(script[k]))
  {
    if script == [] || !Live(script[0]) then 0 else 1 + Ending(script[1..])
  }

  function LastEvent(script: seq<Event>): Event {
    if Ending(script) < |script| then script[Ending(script)] else Interrupted
  }

  function Whole(script: seq<Event>): seq<Row> { Rows(script[..Ending(script)]) }

  /** The rows the batch mode appended. */
  function Appended(script: seq<Event>): seq<Row> {
    var last := LastEvent(script);
    if last.Got? && last.stop != Some(AfterPoll) then Whole(script) + [Keyed(last.tx)] else Whole(script)
  }

  /** The rows the row by row mode committed. */
  function Stored(script: seq<Event>): seq<Row> {
    var last := LastEvent(script);
    if last.Got? && (last.stop == Some(AfterStore) || last.stop == Some(AfterOffsets)) then Whole(script) + [Keyed(last.tx)]
    else Whole(script)
  }

  /** The messages taken from the topic. */
  function Polled(script: seq<Event>): nat {
    |Whole(script)| + if LastEvent(script).Got? || LastEvent(script).Poison? then 1 else 0
  }

  lemma RowsGrow(script: seq<Event>, i: nat)
    requires i < |script|
    ensures var before := Rows(script[..i]);
      Rows(script[..i + 1]) == if script[i].Got? then before + [Keyed(script[i].tx)] else before
  {
    assert script[..i + 1][..i] == script[..i];
  }

  /** `row` is what one of the first `n` messages says, under its hash and time. */
  ghost predicate FromTurn(script: seq<Event>, n: nat, row: Row) {
    exists i :: 0 <= i < n && i < |script| && script[i].Got? &&
      row == (TxKey(script[i].tx.hash, script[i].tx.timestamp), script[i].tx)
  }

  lemma FromSooner(script: seq<Event>, n: nat, m: nat, row: Row)
    requires FromTurn(script, n, row) && n <= m
    ensures FromTurn(script, m, row)
  {
    var i :| 0 <= i < n && i < |script| && script[i].Got? &&
      row == (TxKey(script[i].tx.hash, script[i].tx.timestamp), script[i].tx);
    assert i < m;
  }

  /** One row for each message, in order. */
  lemma {:induction false} RowsMeaning(script: seq<Event>, n: nat)
    requires n <= |script|
    ensures forall i :: 0 <= i < n && script[i].Got? ==>
      (TxKey(script[i].tx.hash, script[i].tx.timestamp), script[i].tx) in Rows(script[..n])
    ensures forall row :: row in Rows(script[..n]) ==> FromTurn(script, n, row)
  {
    if n > 0 {
      RowsMeaning(script, n - 1);
      RowsGrow(script, n - 1);
      forall row | row in Rows(script[..n]) ensures FromTurn(script, n, row) {
        if row in Rows(script[..n - 1]) { FromSooner(script, n - 1, n, row); }
      }
    }
  }

  /** What a table that was given `rows` holds: all it held before, all messages of whole turns, and no other row. */
  ghost predicate Holds(script: seq<Event>, start: Table, table: Table) {
    && (forall k :: k in start ==> k in table && table[k] == start[k])
    && (forall i :: 0 <= i < Ending(script) && script[i].Got? ==> TxKey(script[i].tx.hash, script[i].tx.timestamp) in table)
    && (forall k :: k in table && k !in start ==> FromTurn(script, Ending(script) + 1, (k, table[k])))
  }

  lemma RowOfTurn(script: seq<Event>, rows: seq<Row>, row: Row)
    requires (rows == Appended(script) || rows == Stored(script)) && row in rows
    ensures FromTurn(script, Ending(script) + 1, row)
  {
    var n := Ending(script);
    RowsMeaning(script, n);
    if row in Whole(script) { FromSooner(script, n, n + 1, row); }
  }

  lemma TurnIsHeld(script: seq<Event>, rows: seq<Row>, i: nat)
    requires (rows == Appended(script) || rows == Stored(script)) && i < Ending(script) && script[i].Got?
    ensures (TxKey(script[i].tx.hash, script[i].tx.timestamp), script[i].tx) in rows
  {
    RowsMeaning(script, Ending(script));
    assert (TxKey(script[i].tx.hash, script[i].tx.timestamp), script[i].tx) in Whole(script);
  }

  lemma InsertedRow(start: Table, rows: seq<Row>, k: TxKey)
    requires k in InsertIgnore(start, rows) && k !in start
    ensures (k, InsertIgnore(start, rows)[k]) in rows
  {
    InsertIgnoreMeaning(start, rows);
  }

  lemma KeyIsHeld(start: Table, rows: seq<Row>, row: Row)
    requires row in rows
    ensures row.0 in InsertIgnore(start, rows)
  {
    InsertIgnoreMeaning(start, rows);
    var j :| 0 <= j < |rows| && rows[j] == row;
  }

  lemma OldRowsStay(start: Table, rows: seq<Row>)
    ensures forall k :: k in start ==> k in InsertIgnore(start, rows) && InsertIgnore(start, rows)[k] == start[k]
  {
    InsertIgnoreMeaning(start, rows);
  }

  lemma RowsAreHeld(script: seq<Event>, rows: seq<Row>, start: Table)
    requires rows == Appended(script) || rows == Stored(script)
    ensures Holds(script, start, InsertIgnore(start, rows))
  {
    var table := InsertIgnore(start, rows);
    OldRowsStay(start, rows);
    forall k | k in table && k !in start ensures FromTurn(script, Ending(script) + 1, (k, table[k])) {
      InsertedRow(start, rows, k);
      RowOfTurn(script, rows, (k, table[k]));
    }
    forall i | 0 <= i < Ending(script) && script[i].Got? ensures TxKey(script[i].tx.hash, script[i].tx.timestamp) in table {
      TurnIsHeld(script, rows, i);
      KeyIsHeld(start, rows, (TxKey(script[i].tx.hash, script[i].tx.timestamp), script[i].tx));
    }
  }

  lemma {:induction false} EndingIs(script: seq<Event>, i: nat)
    requires i <= |script| && (forall j :: 0 <= j < i ==> Live(script[j])) && (i < |script| ==> !Live(script[i]))
    ensures Ending(script) == i
  {
    if i > 0 { EndingIs(script[1..], i - 1); }
  }

  /** A connection: what is committed, and the rows of the open transaction. */
  class Session {
    var table: Table
    var open: seq<Row>

    constructor (table: Table)
      ensures this.table == table && open == []
    {
      this.table, open := table, [];
    }

    method ExecuteValues(rows: seq<Row>)
      modifies this`open
      ensures open == old(open) + rows
    {
      open := open + rows;
    }

    method Commit()
      modifies this
      ensures table == InsertIgnore(old(table), old(open)) && open == []
    {
      table, open := InsertIgnore(table, open), [];
    }
  }

  /** Inserting the batch in a transaction that already holds it changes nothing. */
  lemma TwiceIsOnce(table: Table, batch: seq<Row>)
    ensures InsertIgnore(table, batch + batch) == InsertIgnore(table, batch)
    ensures InsertIgnore(InsertIgnore(table, batch), batch) == InsertIgnore(table, batch)
  {
    InsertAppend(table, batch, batch);
    InsertIgnoreMeaning(table, batch);
    InsertAbsorbed(InsertIgnore(table, batch), batch);
  }

  /** The rows of `q` full batches. */
  function Flushed(q: nat, size: nat): nat { if q == 0 then 0 else Flushed(q - 1, size) + size }

  lemma {:induction false} FlushedIs(q: nat, size: nat)
    ensures Flushed(q, size) == q * size
  {
    if q > 0 {
      FlushedIs(q - 1, size);
      assert q * size == (q - 1) * size + size;
    }
  }

  lemma ModIs(n: nat, q: nat, b: nat, size: nat)
    requires b < size && n == Flushed(q, size) + b
    ensures n % size == b
  {
    FlushedIs(q, size);
    RemainderIs(n, q, b, size);
  }

  lemma RemainderIs(n: nat, q: nat, b: nat, size: nat)
    requires b < size && n == q * size + b
    ensures n % size == b
  {
    var k := n / size;
    assert n == k * size + n % size;
    if k > q { Times(q + 1, k, size); } else if k < q { Times(k + 1, q, size); }
  }

  lemma Times(x: nat, y: nat, size: nat)
    requires x <= y
    ensures x * size <= y * size
  {
  }

  // ---- SLOW_MODE = False ---------------------------------------------------------------------------------------------

  /** What one batched turn with a message leaves behind when it is stopped. */
  ghost predicate Interruptible(table: Table, open: seq<Row>, batch: seq<Row>, before: Table)
  {
    InsertIgnore(table, open + batch) == InsertIgnore(before, batch)
  }

  /** The rest of a turn after poll returned `row`; the offset commit is of `position`. */
  method TakeRow(conn: Session, held: seq<Row>, row: Row, size: nat, stop: Option<Stop>, position: nat, committed: nat)
    returns (batch: seq<Row>, offset: nat)
    requires size >= 1 && |held| < size && conn.open == []
    modifies conn
    ensures stop.None? ==> conn.open == []
    ensures stop.None? && |held| + 1 < size ==> batch == held + [row] && conn.table == old(conn.table) && offset == committed
    ensures stop.None? && |held| + 1 == size ==>
      batch == [] && conn.table == InsertIgnore(old(conn.table), held + [row]) && offset == position
    ensures stop == Some(AfterPoll) ==>
      batch == held && conn.table == old(conn.table) && conn.open == [] && offset == committed
    ensures stop.Some? && stop != Some(AfterPoll) ==>
      batch == held + [row] && Interruptible(conn.table, conn.open, batch, old(conn.table))
  {
    batch, offset := held, committed;
    if stop == Some(AfterPoll) { return; }
    batch := batch + [row];
    assert [] + batch == batch;
    if stop == Some(AfterAppend) { return; }
    if |batch| >= size {
      TwiceIsOnce(conn.table, batch);
      conn.ExecuteValues(batch);
      assert conn.open == batch;
      if stop == Some(AfterExecute) { return; }
      conn.Commit();
      if stop == Some(AfterStore) { return; }
      offset := position;
      if stop.Some? { return; }
      batch := [];
    }
  }

  /** Between turns, after `q` flushes: the batch is the tail of the rows, and the rows before it are in the table. */
  ghost predicate Between(start: Table, rows: seq<Row>, table: Table, batch: seq<Row>, size: nat, q: nat) {
    && |batch| < size && |rows| == Flushed(q, size) + |batch|
    && rows[|rows| - |batch|..] == batch
    && table == InsertIgnore(start, rows[..|rows| - |batch|])
  }

  lemma BatchCompletes(start: Table, rows: seq<Row>, table: Table, batch: seq<Row>, size: nat, q: nat)
    requires Between(start, rows, table, batch, size, q)
    ensures InsertIgnore(table, batch) == InsertIgnore(start, rows)
    ensures |rows| % size == |batch|
  {
    var k := |rows| - |batch|;
    assert rows == rows[..k] + batch;
    InsertAppend(start, rows[..k], batch);
    ModIs(|rows|, q, |batch|, size);
  }

  lemma RowHeld(start: Table, rows: seq<Row>, table: Table, held: seq<Row>, row: Row, size: nat, q: nat)
    requires Between(start, rows, table, held, size, q) && |held| + 1 < size
    ensures Between(start, rows + [row], table, held + [row], size, q)
  {
    var k := |rows| - |held|;
    assert (rows + [row])[..k] == rows[..k];
    assert (rows + [row])[k..] == held + [row];
  }

  lemma RowInserted(start: Table, rows: seq<Row>, table: Table, held: seq<Row>, row: Row, size: nat, q: nat)
    requires Between(start, rows, table, held, size, q)
    ensures InsertIgnore(table, held + [row]) == InsertIgnore(start, rows + [row])
    ensures |held| + 1 == size ==>
      Between(start, rows + [row], InsertIgnore(table, held + [row]), [], size, q + 1) && (|rows| + 1) % size == 0
    ensures |held| + 1 < size ==> (|rows| + 1) % size == |held| + 1
  {
    var more := rows + [row];
    InsertAppend(table, held, [row]);
    InsertAppend(start, rows, [row]);
    BatchCompletes(start, rows, table, held, size, q);
    if |held| + 1 == size {
      assert more[..|more|] == more && more[|more|..] == [];
      ModIs(|more|, q + 1, 0, size);
    } else {
      ModIs(|more|, q, |held| + 1, size);
    }
  }

  /** After the loop: inserting the batch, on top of what the transaction holds, completes the table. */
  ghost predicate Ended(start: Table, script: seq<Event>, table: Table, open: seq<Row>, batch: seq<Row>, size: nat,
                        position: nat, offset: nat)
    requires size >= 1
  {
    && InsertIgnore(table, open + batch) == InsertIgnore(start, Appended(script))
    && position == Polled(script)
    && (batch == [] ==> open == [] && |Appended(script)| % size == 0 && offset == |Appended(script)|)
    && (batch != [] && |Appended(script)| % size == 0 ==> position == |Appended(script)|)
  }

  /** A turn that does not end the loop. */
  lemma TurnGoesOn(start: Table, script: seq<Event>, i: nat, table: Table, held: seq<Row>, size: nat, q: nat,
                   table': Table, batch: seq<Row>)
    requires size >= 1 && i < |script| && script[i].Got? && Between(start, Rows(script[..i]), table, held, size, q)
    requires var all := held + [Keyed(script[i].tx)];
      if |all| < size then batch == all && table' == table else batch == [] && table' == InsertIgnore(table, all)
    ensures Between(start, Rows(script[..i + 1]), table', batch, size, if |held| + 1 < size then q else q + 1)
  {
    RowsGrow(script, i);
    var rows, row := Rows(script[..i]), Keyed(script[i].tx);
    if |held| + 1 < size {
      RowHeld(start, rows, table, held, row, size, q);
    } else {
      RowInserted(start, rows, table, held, row, size, q);
    }
  }

  /** A turn that ends it. */
  lemma TurnEnds(start: Table, script: seq<Event>, i: nat, table: Table, held: seq<Row>, size: nat, q: nat,
                 table': Table, open: seq<Row>, batch: seq<Row>, position: nat, offset: nat)
    requires size >= 1 && i < |script| && !Live(script[i]) && (forall j :: 0 <= j < i ==> Live(script[j]))
    requires Between(start, Rows(script[..i]), table, held, size, q)
    requires var n, last := |Rows(script[..i])|, script[i];
      && position == n + (if last.Got? || last.Poison? then 1 else 0)
      && if last.Got? && last.stop != Some(AfterPoll)
         then batch == held + [Keyed(last.tx)] && Interruptible(table', open, batch, table)
         else batch == held && table' == table && open == [] && offset == n - |held|
    ensures Ended(start, script, table', open, batch, size, position, offset)
  {
    EndingIs(script, i);
    var rows := Rows(script[..i]);
    BatchCompletes(start, rows, table, held, size, q);
    if script[i].Got? && script[i].stop != Some(AfterPoll) {
      RowInserted(start, rows, table, held, Keyed(script[i].tx), size, q);
    } else {
      assert open + batch == batch;
    }
  }

  /** The loop was still waiting for messages. */
  lemma ScriptEnds(start: Table, script: seq<Event>, table: Table, batch: seq<Row>, size: nat, q: nat)
    requires size >= 1 && (forall j :: 0 <= j < |script| ==> Live(script[j]))
    requires Between(start, Rows(script[..|script|]), table, batch, size, q)
    ensures var n := |Rows(script[..|script|])|; Ended(start, script, table, [], batch, size, n, n - |batch|)
  {
    EndingIs(script, |script|);
    BatchCompletes(start, Rows(script[..|script|]), table, batch, size, q);
    assert [] + batch == batch;
  }

  /** The loop ends between poll and append while the batch is not empty. */
  predicate CutBeforeAppend(script: seq<Event>, size: nat)
    requires size >= 1
  {
    var last := LastEvent(script);
    (last.Poison? || (last.Got? && last.stop == Some(AfterPoll))) && |Whole(script)| % size != 0
  }

  lemma PassesUnstoredIff(script: seq<Event>, size: nat)
    requires size >= 1
    ensures var n := |Appended(script)|;
      (if n % size == 0 then n else Polled(script)) > n <==> CutBeforeAppend(script, size)
  {
  }

  /** The loop has taken `i` turns and goes on. */
  ghost predicate Going(start: Table, script: seq<Event>, i: nat, table: Table, open: seq<Row>, batch: seq<Row>,
                        size: nat, q: nat, position: nat, offset: nat) {
    && i <= |script| && (forall j :: 0 <= j < i ==> Live(script[j]))
    && position == |Rows(script[..i])| && offset == position - |batch| && open == []
    && Between(start, Rows(script[..i]), table, batch, size, q)
  }

  /** One turn of the loop. */
  method Turn(ghost start: Table, script: seq<Event>, i: nat, conn: Session, held: seq<Row>, size: nat, ghost q: nat,
              polled: nat, committed: nat)
    returns (batch: seq<Row>, position: nat, offset: nat, ended: bool, ghost flushes: nat)
    requires size >= 1 && i < |script| && Going(start, script, i, conn.table, conn.open, held, size, q, polled, committed)
    modifies conn
    ensures ended ==> Ended(start, script, conn.table, conn.open, batch, size, position, offset)
    ensures !ended ==> Going(start, script, i + 1, conn.table, conn.open, batch, size, flushes, position, offset)
  {
    batch, position, offset, ended, flushes := held, polled, committed, false, q;
    ghost var before := conn.table;
    RowsGrow(script, i);
    if script[i].Nothing? {
    } else if script[i].Got? {
      position := position + 1;
      batch, offset := TakeRow(conn, batch, Keyed(script[i].tx), size, script[i].stop, position, offset);
      ended := script[i].stop.Some?;
      if !ended {
        TurnGoesOn(start, script, i, before, held, size, q, conn.table, batch);
        flushes := if |held| + 1 < size then q else q + 1;
      }
    } else {
      if script[i].Poison? { position := position + 1; }
      ended := true;
    }
    if ended {
      TurnEnds(start, script, i, before, held, size, q, conn.table, conn.open, batch, position, offset);
    }
  }

  /** The last clause: exactly then does the committed offset pass a message that was never appended. */
  method RunBatched(script: seq<Event>, size: nat, start: Table) returns (table: Table, offset: nat)
    requires size >= 1
    ensures table == InsertIgnore(start, Appended(script))
    ensures offset == if |Appended(script)| % size == 0 then |Appended(script)| else Polled(script)
    ensures offset > |Appended(script)| <==> CutBeforeAppend(script, size)
    ensures Holds(script, start, table)
  {
    var conn := new Session(start);
    var batch: seq<Row> := [];
    var position := 0;
    offset := 0;
    var ended := false;
    var i := 0;
    ghost var q := 0;
    while i < |script| && !ended
      invariant 0 <= i <= |script| && fresh(conn)
      invariant !ended ==> Going(start, script, i, conn.table, conn.open, batch, size, q, position, offset)
      invariant ended ==> Ended(start, script, conn.table, conn.open, batch, size, position, offset)
    {
      batch, position, offset, ended, q := Turn(start, script, i, conn, batch, size, q, position, offset);
      i := i + 1;
    }
    if !ended { ScriptEnds(start, script, conn.table, batch, size, q); }
    table, offset := Finish(conn, batch, position, offset);
    PassesUnstoredIff(script, size);
    RowsAreHeld(script, Appended(script), start);
  }

  /** The finally block; closing the connection discards what its transaction still holds. */
  method Finish(conn: Session, batch: seq<Row>, position: nat, committed: nat) returns (table: Table, offset: nat)
    modifies conn
    ensures table == if batch == [] then old(conn.table) else InsertIgnore(old(conn.table), old(conn.open) + batch)
    ensures offset == if batch == [] then committed else position
  {
    offset := committed;
    if batch != [] {
      conn.ExecuteValues(batch);
      conn.Commit();
      offset := position;
    }
    table := conn.table;
  }

  // ---- SLOW_MODE = True -----------------------------------------------------------------------------------------------

  /** Never stopped inside a turn, and never three seconds old: the count of processed rows is never reset. */
  predicate Quiet(script: seq<Event>) {
    forall i :: 0 <= i < |script| ==> Live(script[i]) && !(script[i].Got? && script[i].report)
  }

  /** The rest of a turn after poll returned `row`. */
  method StoreRow(conn: Session, row: Row, stop: Option<Stop>, position: nat, processed: nat, committed: nat)
    returns (count: nat, offset: nat)
    requires conn.open == []
    modifies conn
    ensures var stored := stop.None? || stop == Some(AfterStore) || stop == Some(AfterOffsets);
      conn.table == if stored then InsertIgnore(old(conn.table), [row]) else old(conn.table)
    ensures stop.None? ==> conn.open == [] && count == processed + 1
    ensures offset == if (stop.None? || stop == Some(AfterOffsets)) && (processed + 1) % 100 == 0 then position else committed
  {
    count, offset := processed, committed;
    if stop == Some(AfterPoll) || stop == Some(AfterAppend) { return; }
    conn.ExecuteValues([row]);
    assert conn.open == [row];
    if stop == Some(AfterExecute) { return; }
    conn.Commit();
    if stop == Some(AfterStore) { return; }
    assert stop.Some? ==> stop.value.AfterOffsets?;
    count := count + 1;
    if count % 100 == 0 { offset := position; }
  }

  lemma SlowTurn(start: Table, script: seq<Event>, i: nat)
    requires i < |script| && script[i].Got? && forall j :: 0 <= j < i ==> Live(script[j])
    ensures InsertIgnore(InsertIgnore(start, Rows(script[..i])), [Keyed(script[i].tx)])
         == InsertIgnore(start, Rows(script[..i + 1]))
    ensures !Live(script[i]) ==>
      var stored := script[i].stop == Some(AfterStore) || script[i].stop == Some(AfterOffsets);
      Stored(script) == if stored then Rows(script[..i + 1]) else Rows(script[..i])
  {
    RowsGrow(script, i);
    InsertAppend(start, Rows(script[..i]), [Keyed(script[i].tx)]);
    if !Live(script[i]) { EndingIs(script, i); }
  }

  /** The rows processed in the first `n` turns since the last report among them. */
  function Since(script: seq<Event>, n: nat): nat
    requires n <= |script|
  {
    if n == 0 then 0
    else if !script[n - 1].Got? then Since(script, n - 1)
    else if script[n - 1].report then 0
    else Since(script, n - 1) + 1
  }

  /** From one turn to another without a report it grows with the rows. */
  lemma {:induction false} SinceGrows(script: seq<Event>, i: nat, j: nat)
    requires i <= j <= |script| && forall k :: i <= k < j && script[k].Got? ==> !script[k].report
    ensures Since(script, j) - Since(script, i) == |Rows(script[..j])| - |Rows(script[..i])|
  {
    if i < j {
      SinceGrows(script, i, j - 1);
      RowsGrow(script, j - 1);
    }
  }

  predicate CommitsAt(script: seq<Event>, i: nat)
    requires i < |script|
  {
    script[i].Got? && (Since(script, i) + 1) % 100 == 0
  }

  /** The turns that came to the offset commit. */
  function Committing(script: seq<Event>): (n: nat)
    ensures n <= |script|
  {
    var last := LastEvent(script);
    Ending(script) + if last.Got? && last.stop == Some(AfterOffsets) then 1 else 0
  }

  /** `offset` is that of the last commit in the first `n` turns, or 0 when there is none. */
  ghost predicate LastCommit(script: seq<Event>, n: nat, offset: nat)
    requires n <= |script|
  {
    || (offset == 0 && forall i :: 0 <= i < n ==> !CommitsAt(script, i))
    || (exists j :: 0 <= j < n && CommitsAt(script, j) && offset == |Rows(script[..j + 1])| &&
                    forall i :: j < i < n ==> !CommitsAt(script, i))
  }

  lemma CommitHere(script: seq<Event>, n: nat)
    requires n < |script| && CommitsAt(script, n)
    ensures LastCommit(script, n + 1, |Rows(script[..n + 1])|)
  {
  }

  lemma NoCommitHere(script: seq<Event>, n: nat, offset: nat)
    requires n < |script| && !CommitsAt(script, n) && LastCommit(script, n, offset)
    ensures LastCommit(script, n + 1, offset)
  {
    if j :| 0 <= j < n && CommitsAt(script, j) && offset == |Rows(script[..j + 1])| &&
            forall i :: j < i < n ==> !CommitsAt(script, i) {
      assert forall i :: j < i < n + 1 ==> !CommitsAt(script, i);
    }
  }

  lemma TurnCommits(script: seq<Event>, i: nat, before: nat, after: nat)
    requires i < |script| && LastCommit(script, i, before)
    requires after == if CommitsAt(script, i) then |Rows(script[..i + 1])| else before
    ensures LastCommit(script, i + 1, after)
  {
    if CommitsAt(script, i) { CommitHere(script, i); } else { NoCommitHere(script, i, before); }
  }

  lemma Hundreds(n: nat)
    ensures (n + 1) / 100 * 100 == if (n + 1) % 100 == 0 then n + 1 else n / 100 * 100
  {
  }

  /** The loop has taken `i` turns and goes on. */
  ghost predicate SlowGoing(start: Table, script: seq<Event>, i: nat, table: Table, processed: nat, position: nat, offset: nat) {
    && i <= |script| && (forall j :: 0 <= j < i ==> Live(script[j]))
    && table == InsertIgnore(start, Rows(script[..i]))
    && position == |Rows(script[..i])| && offset <= position
    && processed == Since(script, i) && LastCommit(script, i, offset)
    && (Quiet(script) ==> processed == position && offset == position / 100 * 100)
  }

  ghost predicate SlowEnded(start: Table, script: seq<Event>, table: Table, offset: nat) {
    && table == InsertIgnore(start, Stored(script)) && offset <= |Stored(script)|
    && LastCommit(script, Committing(script), offset)
    && (Quiet(script) ==> offset == |Stored(script)| / 100 * 100)
  }

  /** A turn with a message that does not end the loop. */
  lemma SlowGoesOn(start: Table, script: seq<Event>, i: nat, table: Table, processed: nat, position: nat, offset: nat, offset': nat)
    requires SlowGoing(start, script, i, table, processed, position, offset) && i < |script| && script[i].Got? && Live(script[i])
    requires offset' == if (processed + 1) % 100 == 0 then position + 1 else offset
    ensures SlowGoing(start, script, i + 1, InsertIgnore(table, [Keyed(script[i].tx)]),
                      if script[i].report then 0 else processed + 1, position + 1, offset')
  {
    RowsGrow(script, i);
    SlowTurn(start, script, i);
    Hundreds(position);
    TurnCommits(script, i, offset, offset');
  }

  lemma StopIsLast(script: seq<Event>, i: nat)
    requires i < |script| && (forall j :: 0 <= j < i ==> Live(script[j])) && script[i].Got? && script[i].stop.Some?
    ensures Ending(script) == i && LastEvent(script) == script[i] && !Quiet(script)
    ensures Committing(script) == if script[i].stop == Some(AfterOffsets) then i + 1 else i
  {
    EndingIs(script, i);
  }

  lemma CommitOrNot(script: seq<Event>, i: nat, processed: nat, position: nat)
    requires i < |script| && script[i].Got? && processed == Since(script, i) && position == |Rows(script[..i])|
    ensures CommitsAt(script, i) <==> (processed + 1) % 100 == 0
    ensures position + 1 == |Rows(script[..i + 1])|
  {
    RowsGrow(script, i);
  }

  lemma StopCommits(script: seq<Event>, i: nat, processed: nat, position: nat, offset: nat, offset': nat)
    requires i < |script| && (forall j :: 0 <= j < i ==> Live(script[j])) && script[i].Got? && script[i].stop.Some?
    requires processed == Since(script, i) && position == |Rows(script[..i])| && LastCommit(script, i, offset)
    requires offset' == if script[i].stop == Some(AfterOffsets) && (processed + 1) % 100 == 0 then position + 1 else offset
    ensures LastCommit(script, Committing(script), offset')
  {
    StopIsLast(script, i);
    if script[i].stop == Some(AfterOffsets) {
      CommitOrNot(script, i, processed, position);
      TurnCommits(script, i, offset, offset');
    } else {
      assert offset' == offset && Committing(script) == i;
    }
  }

  /** One that does. */
  lemma SlowStops(start: Table, script: seq<Event>, i: nat, table: Table, processed: nat, position: nat, offset: nat,
                  table': Table, offset': nat)
    requires SlowGoing(start, script, i, table, processed, position, offset) && i < |script| && script[i].Got? && script[i].stop.Some?
    requires var stop := script[i].stop;
      && table' == (if stop == Some(AfterStore) || stop == Some(AfterOffsets) then InsertIgnore(table, [Keyed(script[i].tx)]) else table)
      && offset' == if stop == Some(AfterOffsets) && (processed + 1) % 100 == 0 then position + 1 else offset
    ensures SlowEnded(start, script, table', offset')
  {
    StopIsLast(script, i);
    StopCommits(script, i, processed, position, offset, offset');
    RowsGrow(script, i);
    SlowTurn(start, script, i);
  }

  /** Any other end of the loop. */
  lemma SlowEnds(start: Table, script: seq<Event>, i: nat, table: Table, processed: nat, position: nat, offset: nat)
    requires SlowGoing(start, script, i, table, processed, position, offset)
    requires i < |script| ==> !Live(script[i]) && !script[i].Got?
    ensures SlowEnded(start, script, table, offset)
  {
    EndingIs(script, i);
  }

  /** One turn of the loop. */
  method SlowTurnOf(ghost start: Table, script: seq<Event>, i: nat, conn: Session, count: nat, polled: nat, committed: nat)
    returns (processed: nat, position: nat, offset: nat, ended: bool)
    requires i < |script| && conn.open == [] && SlowGoing(start, script, i, conn.table, count, polled, committed)
    modifies conn
    ensures ended ==> SlowEnded(start, script, conn.table, offset)
    ensures !ended ==> conn.open == [] && SlowGoing(start, script, i + 1, conn.table, processed, position, offset)
  {
    processed, position, offset, ended := count, polled, committed, false;
    ghost var table := conn.table;
    if script[i].Nothing? {
      RowsGrow(script, i);
      TurnCommits(script, i, committed, offset);
    } else if script[i].Got? {
      position := position + 1;
      processed, offset := StoreRow(conn, Keyed(script[i].tx), script[i].stop, position, processed, offset);
      ended := script[i].stop.Some?;
      if script[i].report { processed := 0; }
      if ended {
        SlowStops(start, script, i, table, count, polled, committed, conn.table, offset);
      } else {
        SlowGoesOn(start, script, i, table, count, polled, committed, offset);
      }
    } else {
      SlowEnds(start, script, i, table, count, polled, committed);
      ended := true;
    }
  }

  /** The last clause: offsets are those of the last turn that made a hundred rows since the last report. */
  method RunSlow(script: seq<Event>, start: Table) returns (table: Table, offset: nat)
    ensures table == InsertIgnore(start, Stored(script))
    ensures offset <= |Stored(script)|
    ensures Quiet(script) ==> offset == |Stored(script)| / 100 * 100
    ensures Holds(script, start, table)
    ensures LastCommit(script, Committing(script), offset)
  {
    var conn := new Session(start);
    var processed, position := 0, 0;
    offset := 0;
    var ended := false;
    var i := 0;
    while i < |script| && !ended
      invariant 0 <= i <= |script| && fresh(conn)
      invariant !ended ==> conn.open == [] && SlowGoing(start, script, i, conn.table, processed, position, offset)
      invariant ended ==> SlowEnded(start, script, conn.table, offset)
    {
      processed, position, offset, ended := SlowTurnOf(start, script, i, conn, processed, position, offset);
      i := i + 1;
    }
    if !ended { SlowEnds(start, script, i, conn.table, processed, position, offset); }
    table := conn.table;
    RowsAreHeld(script, Stored(script), start);
  }

  // ---- the two modes -------------------------------------------------------------------------------------------------

  /** Stopped between taking a row into the batch (or the transaction) and committing it. */
  predicate StopsMidRow(script: seq<Event>) {
    var last := LastEvent(script);
    last.Got? && (last.stop == Some(AfterAppend) || last.stop == Some(AfterExecute))
  }

  lemma ModesAgreeIff(script: seq<Event>)
    ensures Appended(script) == Stored(script) <==> !StopsMidRow(script)
  {
    if StopsMidRow(script) {
      assert |Appended(script)| == |Stored(script)| + 1;
    } else if LastEvent(script).Got? {
      match LastEvent(script).stop
      case Some(AfterPoll) =>
      case Some(AfterStore) =>
      case Some(AfterOffsets) =>
      case _ =>
    }
  }

  /** Unless stopped mid-row, both modes leave the same table, whatever the batch sizes; AfterStore is no exception. */
  method FastRefinesSlow(script: seq<Event>, size: nat, other: nat, start: Table)
    returns (fast: Table, alike: Table, slow: Table)
    requires size >= 1 && other >= 1
    ensures fast == alike
    ensures !StopsMidRow(script) ==> fast == slow
    ensures StopsMidRow(script) ==> fast == InsertOne(slow, Keyed(LastEvent(script).tx))
  {
    var offset;
    fast, offset := RunBatched(script, size, start);
    alike, offset := RunBatched(script, other, start);
    slow, offset := RunSlow(script, start);
    ModesAgreeIff(script);
    if StopsMidRow(script) {
      InsertAppend(start, Stored(script), [Keyed(LastEvent(script).tx)]);
    }
  }
}
