/** The two tables and their idempotent inserts (src/consumer/db.py, infra/postgres/init.sql). */
module Tables {
  import opened Messages

  datatype TxKey = TxKey(hash: string, timestamp: int)
  datatype TransferKey = TransferKey(hash: string, logIndex: int, timestamp: int)

  function KeyOf(tx: Tx): TxKey { TxKey(tx.hash, tx.timestamp) }
  function TransferKeyOf(t: Transfer): TransferKey { TransferKey(t.hash, t.logIndex, t.timestamp) }

  /** INSERT ... VALUES row ON CONFLICT (key) DO NOTHING */
  function InsertOne<K, V>(t: map<K, V>, row: (K, V)): map<K, V> {
    if row.0 in t then t else t[row.0 := row.1]
  }

  /** The same statement with many rows, taken in order. */
  function InsertIgnore<K, V>(t: map<K, V>, rows: seq<(K, V)>): map<K, V> {
    if rows == [] then t else InsertOne(InsertIgnore(t, rows[..|rows| - 1]), rows[|rows| - 1])
  }

  lemma {:induction false} InsertAppend<K, V>(t: map<K, V>, a: seq<(K, V)>, b: seq<(K, V)>)
    ensures InsertIgnore(t, a + b) == InsertIgnore(InsertIgnore(t, a), b)
  {
    if b == [] {
      assert a + b == a;
    } else {
      InsertAppend(t, a, b[..|b| - 1]);
      assert (a + b)[..|a + b| - 1] == a + b[..|b| - 1];
    }
  }

  /** (k, v) is the first of the rows with this key. */
  ghost predicate IsFirst<K, V>(rows: seq<(K, V)>, k: K, v: V) {
    exists i :: 0 <= i < |rows| && rows[i] == (k, v) && forall j :: 0 <= j < i ==> rows[j].0 != k
  }

  lemma FirstStays<K, V>(rows: seq<(K, V)>, k: K, v: V)
    requires rows != [] && IsFirst(rows[..|rows| - 1], k, v)
    ensures IsFirst(rows, k, v)
  {
    var front := rows[..|rows| - 1];
    var i :| 0 <= i < |front| && front[i] == (k, v) && forall j :: 0 <= j < i ==> front[j].0 != k;
    assert forall j :: 0 <= j < |front| ==> rows[j] == front[j];
    assert rows[i] == (k, v);
  }

  lemma LastIsFirst<K, V>(rows: seq<(K, V)>)
    requires rows != [] && forall j :: 0 <= j < |rows| - 1 ==> rows[j].0 != rows[|rows| - 1].0
    ensures IsFirst(rows, rows[|rows| - 1].0, rows[|rows| - 1].1)
  {
    var n := |rows| - 1;
    assert rows[n] == (rows[n].0, rows[n].1);
  }

  /** What is in the table after the insert: the old rows unchanged, and for each new key its first row. */
  lemma {:induction false} InsertIgnoreMeaning<K, V>(t: map<K, V>, rows: seq<(K, V)>)
    ensures var r := InsertIgnore(t, rows);
      && (forall k :: k in t ==> k in r && r[k] == t[k])
      && (forall i :: 0 <= i < |rows| ==> rows[i].0 in r)
      && (forall k :: k in r && k !in t ==> IsFirst(rows, k, r[k]))
  {
    if rows != [] {
      var n := |rows| - 1;
      var q, r := InsertIgnore(t, rows[..n]), InsertIgnore(t, rows);
      InsertIgnoreMeaning(t, rows[..n]);
      assert forall i :: 0 <= i < n ==> rows[..n][i] == rows[i];
      forall k | k in r && k !in t ensures IsFirst(rows, k, r[k]) {
        if k in q { FirstStays(rows, k, q[k]); } else { LastIsFirst(rows); }
      }
    }
  }

  /** Inserting rows whose keys are all present changes nothing. */
  lemma {:induction false} InsertAbsorbed<K, V>(t: map<K, V>, rows: seq<(K, V)>)
    requires forall i :: 0 <= i < |rows| ==> rows[i].0 in t
    ensures InsertIgnore(t, rows) == t
  {
    if rows != [] {
      InsertAbsorbed(t, rows[..|rows| - 1]);
    }
  }

  lemma PrefixHolds<K, V>(rows: seq<(K, V)>, hw: nat, i: nat)
    requires i < hw <= |rows|
    ensures rows[i].0 in InsertIgnore(map[], rows[..hw])
  {
    InsertIgnoreMeaning(map[], rows[..hw]);
    assert rows[..hw][i] == rows[i];
  }

  /** Replaying a stretch of the inserted prefix changes nothing. */
  lemma ReplayInside<K, V>(rows: seq<(K, V)>, c: nat, q: nat, hw: nat)
    requires c <= q <= hw <= |rows|
    ensures InsertIgnore(InsertIgnore(map[], rows[..hw]), rows[c..q]) == InsertIgnore(map[], rows[..hw])
  {
    var t := InsertIgnore(map[], rows[..hw]);
    forall i | 0 <= i < |rows[c..q]| ensures rows[c..q][i].0 in t { PrefixHolds(rows, hw, c + i); }
    InsertAbsorbed(t, rows[c..q]);
  }

  /** Replaying any stretch that starts inside the already inserted prefix only extends that prefix. */
  lemma ReplayExtendsPrefix<K, V>(rows: seq<(K, V)>, c: nat, hw: nat, q: nat)
    requires c <= hw <= |rows| && c <= q <= |rows|
    ensures InsertIgnore(InsertIgnore(map[], rows[..hw]), rows[c..q])
         == InsertIgnore(map[], rows[..if hw < q then q else hw])
  {
    if q <= hw {
      ReplayInside(rows, c, q, hw);
    } else {
      ReplayInside(rows, c, hw, hw);
      assert rows[c..q] == rows[c..hw] + rows[hw..q];
      InsertAppend(InsertIgnore(map[], rows[..hw]), rows[c..hw], rows[hw..q]);
      assert rows[..q] == rows[..hw] + rows[hw..q];
      InsertAppend(map[], rows[..hw], rows[hw..q]);
    }
  }

  // ---- part of a table -----------------------------------------------------------------------------------------------

  /** The rows whose keys are wanted. */
  function Kept<K, V>(t: map<K, V>, keep: K -> bool): map<K, V> {
    map k | k in t && keep(k) :: t[k]
  }

  lemma AllKept<K, V>(t: map<K, V>, keep: K -> bool)
    requires forall k :: k in t ==> keep(k)
    ensures Kept(t, keep) == t
  {
  }

  function KeptRows<K, V>(rows: seq<(K, V)>, keep: K -> bool): seq<(K, V)> {
    if rows == [] then []
    else KeptRows(rows[..|rows| - 1], keep) + if keep(rows[|rows| - 1].0) then [rows[|rows| - 1]] else []
  }

  lemma KeptInsertOne<K, V>(t: map<K, V>, row: (K, V), keep: K -> bool)
    ensures Kept(InsertOne(t, row), keep) == if keep(row.0) then InsertOne(Kept(t, keep), row) else Kept(t, keep)
  {
  }

  /** Rows with other keys have no influence on the kept part. */
  lemma {:induction false} KeptInsert<K, V>(t: map<K, V>, rows: seq<(K, V)>, keep: K -> bool)
    ensures Kept(InsertIgnore(t, rows), keep) == InsertIgnore(Kept(t, keep), KeptRows(rows, keep))
  {
    if rows != [] {
      var n := |rows| - 1;
      KeptInsert(t, rows[..n], keep);
      KeptInsertOne(InsertIgnore(t, rows[..n]), rows[n], keep);
      var before := KeptRows(rows[..n], keep);
      if keep(rows[n].0) {
        assert (before + [rows[n]])[..|before|] == before;
      } else {
        assert KeptRows(rows, keep) == before;
      }
    }
  }
}
