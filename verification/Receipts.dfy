/** Which receipts are fetched at all (src/storage/etl/receipts.py). */
module Receipts {
  import opened Relational
  import opened Wrappers

  const WEI_PER_ETH := 1_000_000_000_000_000_000

  /** A bronze transaction; a contract creation has no receiver. */
  datatype Txn = Txn(hash: string, time: int, from: Option<string>, to: Option<string>, value: Option<int>)

  /** A line of the transactions file; reading an Unreadable one raises. */
  datatype Line = Blank | Unreadable | Record(tx: Txn)

  /** The transactions of the file, as the later stages read them. */
  function Records(lines: seq<Line>): seq<Txn> {
    if lines == [] then []
    else
      var last := lines[|lines| - 1];
      Records(lines[..|lines| - 1]) + if last.Record? then [last.tx] else []
  }

  /** Every line counts once, in order: blocks of lines one after the other, a record as its transaction, a blank as nothing. */
  lemma RecordsByLine(a: seq<Line>, b: seq<Line>, tx: Txn)
    ensures Records(a + b) == Records(a) + Records(b)
    ensures Records([Record(tx)]) == [tx] && Records([Blank]) == []
  {
    RecordsAppend(a, b);
    assert [Record(tx)][..0] == [] && [Blank][..0] == [];
  }

  lemma {:induction false} RecordsAppend(a: seq<Line>, b: seq<Line>)
    ensures Records(a + b) == Records(a) + Records(b)
  {
    if b == [] {
      assert a + b == a;
    } else {
      RecordsAppend(a, b[..|b| - 1]);
      assert (a + b)[..|a + b| - 1] == a + b[..|b| - 1];
    }
  }

  /** The value in wei; a missing one counts as 0. */
  function Worth(tx: Txn): int { if tx.value.Some? then tx.value.value else 0 }

  function WhaleHashes(txns: seq<Txn>, minEth: int): seq<string> {
    Select(Where(txns, tx => Worth(tx) >= minEth * WEI_PER_ETH), (tx: Txn) => tx.hash)
  }

  /** The line is of a transaction of at least `minEth` ETH. */
  predicate Large(line: Line, minEth: int) {
    line.Record? &&
    minEth * 1_000_000_000_000_000_000 <= if line.tx.value.Some? then line.tx.value.value else 0
  }

  /** `hashes` are those of the large lines among the first `n`, which are at the places `at`, in the order of the file. */
  ghost predicate FromLines(lines: seq<Line>, n: nat, minEth: int, hashes: seq<string>, at: seq<nat>)
    requires n <= |lines|
  {
    && |at| == |hashes|
    && (forall k :: 0 <= k < |at| ==> at[k] < n && Large(lines[at[k]], minEth) && hashes[k] == lines[at[k]].tx.hash)
    && (forall j, k :: 0 <= j < k < |at| ==> at[j] < at[k])
    && (forall i :: 0 <= i < n && Large(lines[i], minEth) ==> i in at)
  }

  lemma LineTaken(lines: seq<Line>, n: nat, minEth: int, hashes: seq<string>, at: seq<nat>)
    requires n < |lines| && FromLines(lines, n, minEth, hashes, at) && Large(lines[n], minEth)
    ensures FromLines(lines, n + 1, minEth, hashes + [lines[n].tx.hash], at + [n])
  {
    forall i | 0 <= i < n + 1 && Large(lines[i], minEth) ensures i in at + [n] {
      if i == n { assert (at + [n])[|at|] == n; } else { assert i in at; }
    }
  }

  lemma LinePassed(lines: seq<Line>, n: nat, minEth: int, hashes: seq<string>, at: seq<nat>)
    requires n < |lines| && FromLines(lines, n, minEth, hashes, at) && !Large(lines[n], minEth)
    ensures FromLines(lines, n + 1, minEth, hashes, at)
  {
  }

  /** So a hash is taken exactly when some large line has it. */
  lemma TakenIff(lines: seq<Line>, minEth: int, hashes: seq<string>, at: seq<nat>)
    requires FromLines(lines, |lines|, minEth, hashes, at)
    ensures forall h :: h in hashes <==> exists i :: 0 <= i < |lines| && Large(lines[i], minEth) && lines[i].tx.hash == h
  {
    forall h | h in hashes ensures exists i :: 0 <= i < |lines| && Large(lines[i], minEth) && lines[i].tx.hash == h {
      var k :| 0 <= k < |hashes| && hashes[k] == h;
      assert Large(lines[at[k]], minEth);
    }
    forall i | 0 <= i < |lines| && Large(lines[i], minEth) ensures lines[i].tx.hash in hashes {
      var k :| 0 <= k < |at| && at[k] == i;
      assert hashes[k] == lines[i].tx.hash;
    }
  }

  lemma RecordsGrow(lines: seq<Line>, i: nat, minEth: int)
    requires i < |lines|
    ensures WhaleHashes(Records(lines[..i + 1]), minEth) ==
      WhaleHashes(Records(lines[..i]), minEth) + if Large(lines[i], minEth) then [lines[i].tx.hash] else []
  {
    var before := Records(lines[..i]);
    assert lines[..i + 1][..i] == lines[..i];
    if lines[i].Record? {
      assert Records(lines[..i + 1]) == before + [lines[i].tx];
      OneMore(before, lines[i].tx, minEth);
    } else {
      assert Records(lines[..i + 1]) == before;
    }
  }

  /** _extract_tx_hashes: None when it raises. */
  method ExtractTxHashes(lines: seq<Line>, minEth: int) returns (r: Option<seq<string>>, ghost at: seq<nat>)
    ensures r == if Unreadable in lines then None else Some(WhaleHashes(Records(lines), minEth))
    ensures r.Some? ==> FromLines(lines, |lines|, minEth, r.value, at)
    ensures r.Some? ==> forall h :: h in r.value <==> exists i :: 0 <= i < |lines| && Large(lines[i], minEth) && lines[i].tx.hash == h
  {
    var hashes: seq<string> := [];
    at := [];
    var threshold := minEth * WEI_PER_ETH;
    for i := 0 to |lines|
      invariant Unreadable !in lines[..i]
      invariant FromLines(lines, i, minEth, hashes, at)
      invariant hashes == WhaleHashes(Records(lines[..i]), minEth)
    {
      if lines[i].Unreadable? {
        return None, at;
      }
      RecordsGrow(lines, i, minEth);
      if Large(lines[i], minEth) { LineTaken(lines, i, minEth, hashes, at); } else { LinePassed(lines, i, minEth, hashes, at); }
      if lines[i].Record? {
        var tx := lines[i].tx;
        var value := if tx.value.Some? then tx.value.value else 0;
        if value >= threshold {
          hashes, at := hashes + [tx.hash], at + [i];
        }
      }
    }
    assert lines[..|lines|] == lines;
    TakenIff(lines, minEth, hashes, at);
    return Some(hashes), at;
  }

  lemma OneMore(txns: seq<Txn>, tx: Txn, minEth: int)
    ensures var before := WhaleHashes(txns, minEth);
      WhaleHashes(txns + [tx], minEth) == if Worth(tx) >= minEth * WEI_PER_ETH then before + [tx.hash] else before
  {
    assert (txns + [tx])[..|txns|] == txns;
  }

  /** Extracting file by file is extracting from the whole day. */
  lemma HashesByFile(a: seq<Txn>, b: seq<Txn>, minEth: int)
    ensures WhaleHashes(a + b, minEth) == WhaleHashes(a, minEth) + WhaleHashes(b, minEth)
  {
    WhereAppend(a, b, tx => Worth(tx) >= minEth * WEI_PER_ETH);
  }

  ghost predicate UniqueHashes(txns: seq<Txn>) {
    forall i, j :: 0 <= i < j < |txns| ==> txns[i].hash != txns[j].hash
  }

  /** A hash is extracted exactly when its transaction is large enough. */
  lemma ExtractedIff(txns: seq<Txn>, minEth: int, tx: Txn)
    requires UniqueHashes(txns) && tx in txns
    ensures tx.hash in WhaleHashes(txns, minEth) <==> Worth(tx) >= minEth * WEI_PER_ETH
  {
    var p := (t: Txn) => Worth(t) >= minEth * WEI_PER_ETH;
    var kept := Where(txns, p);
    WhereKeeps(txns, p);
    var i :| 0 <= i < |txns| && txns[i] == tx;
    if p(tx) {
      assert tx in kept;
      var j :| 0 <= j < |kept| && kept[j] == tx;
      assert WhaleHashes(txns, minEth)[j] == tx.hash;
    }
    if tx.hash in WhaleHashes(txns, minEth) {
      var j :| 0 <= j < |kept| && WhaleHashes(txns, minEth)[j] == tx.hash;
      assert kept[j] in kept;
      var k :| 0 <= k < |txns| && txns[k] == kept[j];
      assert i == k;
    }
  }

  lemma {:induction false} WhaleHashesDistinct(txns: seq<Txn>, minEth: int)
    requires UniqueHashes(txns)
    ensures forall i, j :: 0 <= i < j < |WhaleHashes(txns, minEth)|
              ==> WhaleHashes(txns, minEth)[i] != WhaleHashes(txns, minEth)[j]
  {
    if txns != [] {
      var n := |txns| - 1;
      var before := WhaleHashes(txns[..n], minEth);
      WhaleHashesDistinct(txns[..n], minEth);
      assert txns == txns[..n] + [txns[n]];
      OneMore(txns[..n], txns[n], minEth);
      var p := (t: Txn) => Worth(t) >= minEth * WEI_PER_ETH;
      WhereKeeps(txns[..n], p);
      forall i | 0 <= i < |before| ensures before[i] != txns[n].hash {
        assert Where(txns[..n], p)[i] in Where(txns[..n], p);
      }
    }
  }
}
