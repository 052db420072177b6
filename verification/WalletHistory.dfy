/**
 The wallet queries (src/backend/repositories/wallet_repo.py): both directions are limited, joined
 with UNION ALL, labelled and limited again.  They replaced one query with an OR.
 */
module WalletHistory {
  import opened Wrappers
  import opened Relational
  import opened TopK

  datatype AddressLabel = AddressLabel(address: string, name: string, category: string)
  datatype Token = Token(address: string, symbol: string, decimals: int)

  /** A selected row of either table; `token` is None for plain transactions. */
  datatype Row = Row(hash: string, timestamp: int, from: string, to: Option<string>, value: int, token: Option<string>)

  datatype HistoryRow = HistoryRow(row: Row, token: Option<Token>, fromLabel: Option<AddressLabel>, toLabel: Option<AddressLabel>)

  function Time(r: Row): int { r.timestamp }
  function HistoryTime(h: HistoryRow): int { h.row.timestamp }

  function Sent(table: seq<Row>, a: string): seq<Row> { Where(table, (r: Row) => r.from == a) }
  function Received(table: seq<Row>, a: string): seq<Row> { Where(table, (r: Row) => r.to == Some(a)) }
  function Either(table: seq<Row>, a: string): seq<Row> { Where(table, (r: Row) => r.from == a || r.to == Some(a)) }
  function ToSelf(table: seq<Row>, a: string): seq<Row> { Where(table, (r: Row) => r.from == a && r.to == Some(a)) }

  // ---- the label joins ------------------------------------------------------------------------------------

  datatype Labels = Labels(tokens: seq<Token>, labels: seq<AddressLabel>)

  /** The primary keys of tokens and address_labels. */
  ghost predicate KeysUnique(l: Labels) {
    && (forall i, j :: 0 <= i < j < |l.tokens| ==> l.tokens[i].address != l.tokens[j].address)
    && (forall i, j :: 0 <= i < j < |l.labels| ==> l.labels[i].address != l.labels[j].address)
  }

  function OnToken(r: Row, t: Token): bool { r.token == Some(t.address) }
  function OnFrom(x: (Row, Option<Token>), l: AddressLabel): bool { x.0.from == l.address }
  function OnTo(x: ((Row, Option<Token>), Option<AddressLabel>), l: AddressLabel): bool { x.0.0.to == Some(l.address) }
  function Flatten(x: (((Row, Option<Token>), Option<AddressLabel>), Option<AddressLabel>)): HistoryRow {
    HistoryRow(x.0.0.0, x.0.0.1, x.0.1, x.1)
  }

  /** sub LEFT JOIN tokens LEFT JOIN address_labels LEFT JOIN address_labels. */
  function Joined(rows: seq<Row>, l: Labels): seq<HistoryRow> {
    Select(LeftJoin(LeftJoin(LeftJoin(rows, l.tokens, OnToken), l.labels, OnFrom), l.labels, OnTo), Flatten)
  }

  /** What the joins put beside one row. */
  function Annotated(r: Row, l: Labels): HistoryRow {
    var token := Match(r, l.tokens, OnToken);
    var from := Match((r, token), l.labels, OnFrom);
    HistoryRow(r, token, from, Match(((r, token), from), l.labels, OnTo))
  }

  lemma TokensJoin(rows: seq<Row>, l: Labels)
    requires KeysUnique(l)
    ensures LeftJoin(rows, l.tokens, OnToken) == Select(rows, r => (r, Match(r, l.tokens, OnToken)))
  {
    forall a | a in rows ensures |Partners(a, l.tokens, OnToken)| <= 1 { PartnerUnique(a, l.tokens, OnToken); }
    LeftJoinKeepsRows(rows, l.tokens, OnToken);
  }

  lemma FromJoin(rows: seq<(Row, Option<Token>)>, l: Labels)
    requires KeysUnique(l)
    ensures LeftJoin(rows, l.labels, OnFrom) == Select(rows, r => (r, Match(r, l.labels, OnFrom)))
  {
    forall a | a in rows ensures |Partners(a, l.labels, OnFrom)| <= 1 { PartnerUnique(a, l.labels, OnFrom); }
    LeftJoinKeepsRows(rows, l.labels, OnFrom);
  }

  lemma ToJoin(rows: seq<((Row, Option<Token>), Option<AddressLabel>)>, l: Labels)
    requires KeysUnique(l)
    ensures LeftJoin(rows, l.labels, OnTo) == Select(rows, r => (r, Match(r, l.labels, OnTo)))
  {
    forall a | a in rows ensures |Partners(a, l.labels, OnTo)| <= 1 { PartnerUnique(a, l.labels, OnTo); }
    LeftJoinKeepsRows(rows, l.labels, OnTo);
  }

  /** With unique keys the joins neither drop nor repeat a row. */
  lemma JoinedKeepsRows(rows: seq<Row>, l: Labels)
    requires KeysUnique(l)
    ensures Joined(rows, l) == Select(rows, r => Annotated(r, l))
  {
    var one := LeftJoin(rows, l.tokens, OnToken);
    var two := LeftJoin(one, l.labels, OnFrom);
    var three := LeftJoin(two, l.labels, OnTo);
    TokensJoin(rows, l);
    FromJoin(one, l);
    ToJoin(two, l);
    assert |three| == |rows|;
    forall i | 0 <= i < |rows| ensures Flatten(three[i]) == Annotated(rows[i], l) {
      assert one[i] == (rows[i], Match(rows[i], l.tokens, OnToken));
      assert two[i] == (one[i], Match(one[i], l.labels, OnFrom));
      assert three[i] == (two[i], Match(two[i], l.labels, OnTo));
    }
  }

  /** `found` is the one row of `right` of which `p` holds, or nothing when there is none. */
  ghost predicate IsThe<B(!new)>(found: Option<B>, right: seq<B>, p: B -> bool) {
    && (forall b :: found == Some(b) <==> b in right && p(b))
    && (found.None? <==> forall b :: b in right ==> !p(b))
  }

  lemma MatchIsThe<A, B(!new)>(a: A, right: seq<B>, on: (A, B) -> bool, p: B -> bool)
    requires forall i, j :: 0 <= i < j < |right| ==> !(on(a, right[i]) && on(a, right[j]))
    requires forall b :: on(a, b) == p(b)
    ensures IsThe(Match(a, right, on), right, p)
  {
    PartnerUnique(a, right, on);
    forall b | b in right && p(b) ensures Match(a, right, on) == Some(b) {
      var i :| 0 <= i < |right| && right[i] == b;
      var m := Match(a, right, on).value;
      var j :| 0 <= j < |right| && right[j] == m;
    }
  }

  /** The labels of a row are those of its own sender, receiver and token. */
  ghost predicate Labelled(h: HistoryRow, l: Labels) {
    && IsThe(h.fromLabel, l.labels, (x: AddressLabel) => x.address == h.row.from)
    && IsThe(h.toLabel, l.labels, (x: AddressLabel) => Some(x.address) == h.row.to)
    && IsThe(h.token, l.tokens, (x: Token) => Some(x.address) == h.row.token)
  }

  lemma AnnotatedIsLabelled(r: Row, l: Labels)
    requires KeysUnique(l)
    ensures Labelled(Annotated(r, l), l) && Annotated(r, l).row == r
  {
    var token := Match(r, l.tokens, OnToken);
    var from := Match((r, token), l.labels, OnFrom);
    MatchIsThe(r, l.tokens, OnToken, (x: Token) => Some(x.address) == r.token);
    MatchIsThe((r, token), l.labels, OnFrom, (x: AddressLabel) => x.address == r.from);
    MatchIsThe(((r, token), from), l.labels, OnTo, (x: AddressLabel) => Some(x.address) == r.to);
  }

  // ---- the two queries ---------------------------------------------------------------------------------------

  /** `out` is a possible answer of the query as it is written. */
  ghost predicate UnionAnswer(table: seq<Row>, l: Labels, a: string, limit: nat, out: seq<HistoryRow>) {
    exists sent, received ::
      IsTopK(Time, limit, multiset(Sent(table, a)), sent) && IsTopK(Time, limit, multiset(Received(table, a)), received) &&
      IsTopK(HistoryTime, limit, multiset(Joined(sent + received, l)), out)
  }

  /** `out` is a possible answer of the OR query it replaced, labelled the same way. */
  ghost predicate OrAnswer(table: seq<Row>, l: Labels, a: string, limit: nat, out: seq<HistoryRow>) {
    exists rows :: IsTopK(Time, limit, multiset(Either(table, a)), rows) && out == Select(rows, r => Annotated(r, l))
  }

  function PlainRow(h: HistoryRow): Row { h.row }

  lemma {:induction false} AnnotatedCount(rows: seq<Row>, l: Labels, h: HistoryRow)
    ensures multiset(Select(rows, r => Annotated(r, l)))[h] == if h == Annotated(h.row, l) then multiset(rows)[h.row] else 0
  {
    if rows != [] {
      var k := |rows| - 1;
      AnnotatedCount(rows[..k], l, h);
      assert rows == rows[..k] + [rows[k]];
      assert Select(rows, r => Annotated(r, l)) == Select(rows[..k], r => Annotated(r, l)) + [Annotated(rows[k], l)];
    }
  }

  /** Annotating commutes with taking the limit. */
  lemma AnnotatedTopK(l: Labels, limit: nat, input: seq<Row>, r: seq<Row>)
    requires IsTopK(Time, limit, multiset(input), r)
    ensures IsTopK(HistoryTime, limit, multiset(Select(input, x => Annotated(x, l))), Select(r, x => Annotated(x, l)))
  {
    var big, out := Select(input, x => Annotated(x, l)), Select(r, x => Annotated(x, l));
    forall h ensures multiset(out)[h] <= multiset(big)[h] {
      AnnotatedCount(input, l, h);
      AnnotatedCount(r, l, h);
    }
    assert |multiset(input)| == |input| && |multiset(big)| == |big|;
    forall x, y | multiset(big)[x] > multiset(out)[x] && y in multiset(out) ensures HistoryTime(x) <= HistoryTime(y) {
      AnnotatedCount(input, l, x);
      AnnotatedCount(r, l, x);
      AnnotatedCount(r, l, y);
      assert multiset(input)[x.row] > multiset(r)[x.row] && y.row in multiset(r);
    }
  }

  lemma {:induction false} RowsOfAnnotated(input: seq<Row>, l: Labels, out: seq<HistoryRow>)
    requires multiset(out) <= multiset(Select(input, x => Annotated(x, l)))
    ensures out == Select(Select(out, PlainRow), x => Annotated(x, l))
  {
    var back := Select(Select(out, PlainRow), x => Annotated(x, l));
    assert |back| == |out|;
    forall i | 0 <= i < |out| ensures back[i] == out[i] {
      assert out[i] in multiset(out);
      AnnotatedCount(input, l, out[i]);
    }
  }

  lemma PlainTopK(l: Labels, limit: nat, input: seq<Row>, out: seq<HistoryRow>)
    requires IsTopK(HistoryTime, limit, multiset(Select(input, x => Annotated(x, l))), out)
    ensures IsTopK(Time, limit, multiset(input), Select(out, PlainRow))
    ensures out == Select(Select(out, PlainRow), x => Annotated(x, l))
  {
    var big, r := Select(input, x => Annotated(x, l)), Select(out, PlainRow);
    RowsOfAnnotated(input, l, out);
    forall x ensures multiset(r)[x] <= multiset(input)[x] && multiset(r)[x] == multiset(out)[Annotated(x, l)] &&
                     multiset(input)[x] == multiset(big)[Annotated(x, l)]
    {
      AnnotatedCount(input, l, Annotated(x, l));
      AnnotatedCount(r, l, Annotated(x, l));
    }
    assert |multiset(input)| == |input| && |multiset(big)| == |big|;
    forall x, y | multiset(input)[x] > multiset(r)[x] && y in multiset(r) ensures Time(x) <= Time(y) {
      assert HistoryTime(Annotated(x, l)) <= HistoryTime(Annotated(y, l));
    }
  }

  /** Both branches together: the rows of the OR, and those to oneself a second time. */
  lemma BranchesCountSelfTwice(table: seq<Row>, a: string)
    ensures multiset(Sent(table, a)) + multiset(Received(table, a)) == multiset(Either(table, a)) + multiset(ToSelf(table, a))
    ensures multiset(ToSelf(table, a)) <= multiset(Either(table, a))
  {
    forall x: Row
      ensures multiset(Sent(table, a))[x] + multiset(Received(table, a))[x]
           == multiset(Either(table, a))[x] + multiset(ToSelf(table, a))[x]
      ensures multiset(ToSelf(table, a))[x] <= multiset(Either(table, a))[x]
    {
      CountOfRow(table, a, x);
    }
  }

  lemma CountOfRow(table: seq<Row>, a: string, x: Row)
    ensures multiset(Sent(table, a))[x] == if x.from == a then multiset(table)[x] else 0
    ensures multiset(Received(table, a))[x] == if x.to == Some(a) then multiset(table)[x] else 0
    ensures multiset(Either(table, a))[x] == if x.from == a || x.to == Some(a) then multiset(table)[x] else 0
    ensures multiset(ToSelf(table, a))[x] == if x.from == a && x.to == Some(a) then multiset(table)[x] else 0
  {
    WhereMeaning(table, (r: Row) => r.from == a);
    WhereMeaning(table, (r: Row) => r.to == Some(a));
    WhereMeaning(table, (r: Row) => r.from == a || r.to == Some(a));
    WhereMeaning(table, (r: Row) => r.from == a && r.to == Some(a));
  }

  /** The rewritten query answers exactly the unlimited union, with every row to oneself counted twice. */
  lemma UnionAnswerMeaning(table: seq<Row>, l: Labels, a: string, limit: nat, out: seq<HistoryRow>)
    requires KeysUnique(l)
    ensures UnionAnswer(table, l, a, limit, out) <==>
      exists rows :: IsTopK(Time, limit, multiset(Either(table, a)) + multiset(ToSelf(table, a)), rows) &&
                     out == Select(rows, r => Annotated(r, l))
  {
    BranchesCountSelfTwice(table, a);
    if UnionAnswer(table, l, a, limit, out) {
      UnionAnswerSound(table, l, a, limit, out);
    }
    if rows :| IsTopK(Time, limit, multiset(Either(table, a)) + multiset(ToSelf(table, a)), rows) &&
               out == Select(rows, r => Annotated(r, l)) {
      UnionAnswerComplete(table, l, a, limit, rows);
    }
  }

  lemma TakenAreOfWallet(table: seq<Row>, a: string, limit: nat, rows: seq<Row>, r: Row)
    requires IsTopK(Time, limit, multiset(Either(table, a)) + multiset(ToSelf(table, a)), rows) && r in rows
    ensures r in table && (r.from == a || r.to == Some(a))
  {
    assert r in multiset(rows);
    CountOfRow(table, a, r);
    assert multiset(table)[r] > 0;
  }

  lemma TakenIsLabelled(table: seq<Row>, l: Labels, a: string, limit: nat, rows: seq<Row>, i: nat)
    requires KeysUnique(l) && i < |rows|
    requires IsTopK(Time, limit, multiset(Either(table, a)) + multiset(ToSelf(table, a)), rows)
    ensures OfWallet(Annotated(rows[i], l), table, l, a)
  {
    AnnotatedIsLabelled(rows[i], l);
    TakenAreOfWallet(table, a, limit, rows, rows[i]);
  }

  /** `h` is a row of the wallet beside the labels of its own addresses. */
  ghost predicate OfWallet(h: HistoryRow, table: seq<Row>, l: Labels, a: string) {
    h.row in table && (h.row.from == a || h.row.to == Some(a)) && Labelled(h, l)
  }

  ghost predicate NewestFirst(out: seq<HistoryRow>) {
    forall i, j :: 0 <= i < j < |out| ==> out[i].row.timestamp >= out[j].row.timestamp
  }

  /** Every answer is of rows of the wallet, newest first, each beside the labels of its own addresses. */
  lemma AnswersAreLabelled(table: seq<Row>, l: Labels, a: string, limit: nat, out: seq<HistoryRow>)
    requires KeysUnique(l) && UnionAnswer(table, l, a, limit, out)
    ensures |out| <= limit && NewestFirst(out)
    ensures forall i :: 0 <= i < |out| ==> OfWallet(out[i], table, l, a)
  {
    var rows := RowsBehind(table, l, a, limit, out);
    RowsAreLabelled(table, l, a, limit, rows, out);
  }

  lemma RowsBehind(table: seq<Row>, l: Labels, a: string, limit: nat, out: seq<HistoryRow>) returns (rows: seq<Row>)
    requires KeysUnique(l) && UnionAnswer(table, l, a, limit, out)
    ensures IsTopK(Time, limit, multiset(Either(table, a)) + multiset(ToSelf(table, a)), rows)
    ensures |out| == |rows| && forall i :: 0 <= i < |rows| ==> out[i] == Annotated(rows[i], l)
  {
    UnionAnswerMeaning(table, l, a, limit, out);
    rows :| IsTopK(Time, limit, multiset(Either(table, a)) + multiset(ToSelf(table, a)), rows) &&
            out == Select(rows, r => Annotated(r, l));
  }

  lemma RowsAreLabelled(table: seq<Row>, l: Labels, a: string, limit: nat, rows: seq<Row>, out: seq<HistoryRow>)
    requires KeysUnique(l) && |out| == |rows| && forall i :: 0 <= i < |rows| ==> out[i] == Annotated(rows[i], l)
    requires IsTopK(Time, limit, multiset(Either(table, a)) + multiset(ToSelf(table, a)), rows)
    ensures |out| <= limit && NewestFirst(out)
    ensures forall i :: 0 <= i < |out| ==> OfWallet(out[i], table, l, a)
  {
    forall i | 0 <= i < |out| ensures OfWallet(out[i], table, l, a) { TakenIsLabelled(table, l, a, limit, rows, i); }
    forall i, j | 0 <= i < j < |out| ensures out[i].row.timestamp >= out[j].row.timestamp {
      assert Time(rows[i]) >= Time(rows[j]);
    }
  }

  lemma UnionAnswerSound(table: seq<Row>, l: Labels, a: string, limit: nat, out: seq<HistoryRow>)
    requires KeysUnique(l) && UnionAnswer(table, l, a, limit, out)
    ensures exists rows :: IsTopK(Time, limit, multiset(Sent(table, a)) + multiset(Received(table, a)), rows) &&
                           out == Select(rows, r => Annotated(r, l))
  {
    var sent, received :|
      IsTopK(Time, limit, multiset(Sent(table, a)), sent) && IsTopK(Time, limit, multiset(Received(table, a)), received) &&
      IsTopK(HistoryTime, limit, multiset(Joined(sent + received, l)), out);
    JoinedKeepsRows(sent + received, l);
    PlainTopK(l, limit, sent + received, out);
    assert multiset(sent + received) == multiset(sent) + multiset(received);
    PushdownSound(Time, limit, multiset(Sent(table, a)), multiset(Received(table, a)), sent, received, Select(out, PlainRow));
  }

  lemma UnionAnswerComplete(table: seq<Row>, l: Labels, a: string, limit: nat, rows: seq<Row>)
    requires KeysUnique(l)
    requires IsTopK(Time, limit, multiset(Sent(table, a)) + multiset(Received(table, a)), rows)
    ensures UnionAnswer(table, l, a, limit, Select(rows, r => Annotated(r, l)))
  {
    var sent, received := PushdownComplete(Time, limit, multiset(Sent(table, a)), multiset(Received(table, a)), rows);
    assert multiset(sent + received) == multiset(sent) + multiset(received);
    JoinedKeepsRows(sent + received, l);
    AnnotatedTopK(l, limit, sent + received, rows);
  }

  /**
   The rewrite has the same answers as the OR query exactly when the limit cannot reach a second copy of any row whose
   sender and receiver are both the wallet.
   */
  lemma RewriteAgreesIff(table: seq<Row>, l: Labels, a: string, limit: nat)
    requires KeysUnique(l)
    ensures (forall out :: UnionAnswer(table, l, a, limit, out) <==> OrAnswer(table, l, a, limit, out)) <==>
            forall s :: s in multiset(ToSelf(table, a)) ==>
              limit <= |Above(Time, multiset(Either(table, a)), s.timestamp)| + multiset(Either(table, a))[s]
  {
    var O, S := multiset(Either(table, a)), multiset(ToSelf(table, a));
    BranchesCountSelfTwice(table, a);
    if LimitTooSmall(Time, limit, O, S) {
      forall out ensures UnionAnswer(table, l, a, limit, out) <==> OrAnswer(table, l, a, limit, out) {
        SmallLimitAgrees(table, l, a, limit, out);
      }
    } else {
      var out := ExtraAnswer(table, l, a, limit);
    }
  }

  lemma SmallLimitAgrees(table: seq<Row>, l: Labels, a: string, limit: nat, out: seq<HistoryRow>)
    requires KeysUnique(l) && multiset(ToSelf(table, a)) <= multiset(Either(table, a))
    requires LimitTooSmall(Time, limit, multiset(Either(table, a)), multiset(ToSelf(table, a)))
    ensures UnionAnswer(table, l, a, limit, out) <==> OrAnswer(table, l, a, limit, out)
  {
    UnionAnswerMeaning(table, l, a, limit, out);
    forall rows
      ensures IsTopK(Time, limit, multiset(Either(table, a)) + multiset(ToSelf(table, a)), rows)
         <==> IsTopK(Time, limit, multiset(Either(table, a)), rows)
    {
      SameAnswer(Time, limit, multiset(Either(table, a)), multiset(ToSelf(table, a)), rows);
    }
  }

  /** An answer of the rewrite with a row once too often. */
  lemma ExtraAnswer(table: seq<Row>, l: Labels, a: string, limit: nat) returns (out: seq<HistoryRow>)
    requires KeysUnique(l) && multiset(ToSelf(table, a)) <= multiset(Either(table, a))
    requires !LimitTooSmall(Time, limit, multiset(Either(table, a)), multiset(ToSelf(table, a)))
    ensures UnionAnswer(table, l, a, limit, out) && !OrAnswer(table, l, a, limit, out)
  {
    var O, S := multiset(Either(table, a)), multiset(ToSelf(table, a));
    var rows := DoubledShows(Time, limit, O, S);
    out := Select(rows, r => Annotated(r, l));
    UnionAnswerMeaning(table, l, a, limit, out);
    if OrAnswer(table, l, a, limit, out) {
      var other :| IsTopK(Time, limit, O, other) && out == Select(other, r => Annotated(r, l));
      SameRows(rows, other, l);
    }
  }

  lemma SameRows(x: seq<Row>, y: seq<Row>, l: Labels)
    requires Select(x, r => Annotated(r, l)) == Select(y, r => Annotated(r, l))
    ensures x == y
  {
    forall i | 0 <= i < |x| ensures x[i] == y[i] {
      assert Select(x, r => Annotated(r, l))[i] == Annotated(x[i], l);
      assert Select(y, r => Annotated(r, l))[i] == Annotated(y[i], l);
    }
    assert |Select(x, r => Annotated(r, l))| == |x| && |Select(y, r => Annotated(r, l))| == |y|;
  }

  /** In particular a wallet that never sends to itself gets the same answers from both queries. */
  lemma NoSelfTransferAgrees(table: seq<Row>, l: Labels, a: string, limit: nat, out: seq<HistoryRow>)
    requires KeysUnique(l) && forall r :: r in table ==> !(r.from == a && r.to == Some(a))
    ensures UnionAnswer(table, l, a, limit, out) <==> OrAnswer(table, l, a, limit, out)
  {
    WhereNone(table, (r: Row) => r.from == a && r.to == Some(a));
    assert ToSelf(table, a) == [];
    assert multiset(Either(table, a)) + multiset(ToSelf(table, a)) == multiset(Either(table, a));
    UnionAnswerMeaning(table, l, a, limit, out);
  }
}
