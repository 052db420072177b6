/** The daily wallet summary (src/gold/transform/top_whales_daily.py), made of a day's whale_txns. */
module TopWhales {
  import opened OuterJoins
  import opened Receipts
  import opened Relational
  import opened Rounding
  import opened Sums
  import opened WhaleTxns
  import opened Windows
  import opened Wrappers

  datatype Sent = Sent(address: Option<string>, total: int, count: nat, flag: bool)
  datatype Recv = Recv(address: Option<string>, total: int, count: nat)

  /** A row after the outer join and fillna. */
  datatype Wallet = Wallet(address: Option<string>, sent: int, recv: int, asSender: nat, asReceiver: nat, flag: bool)

  function To(w: Whale): Option<string> { w.to }

  function ReceivedBy(rows: seq<Whale>, a: Option<string>): seq<Whale> { Group(rows, To, a) }

  function SentOf(rows: seq<Whale>, a: Option<string>): Sent {
    Sent(a, Sum(SentBy(rows, a), Value), |SentBy(rows, a)|, GoldFlag(rows, a))
  }

  function RecvOf(rows: seq<Whale>, a: Option<string>): Recv {
    Recv(a, Sum(ReceivedBy(rows, a), Value), |ReceivedBy(rows, a)|)
  }

  /** GROUP BY from_address, and by to_address. */
  function SentTable(rows: seq<Whale>): seq<Sent> { Select(Keys(rows, From), a => SentOf(rows, a)) }
  function RecvTable(rows: seq<Whale>): seq<Recv> { Select(Keys(rows, To), a => RecvOf(rows, a)) }

  /** The join condition: NULL equals nothing. */
  predicate SameAddress(s: Sent, r: Recv) { s.address.Some? && s.address == r.address }

  function WalletOf(p: (Option<Sent>, Option<Recv>)): Wallet {
    Wallet(if p.0.Some? then p.0.value.address else if p.1.Some? then p.1.value.address else None,
           if p.0.Some? then p.0.value.total else 0, if p.1.Some? then p.1.value.total else 0,
           if p.0.Some? then p.0.value.count else 0, if p.1.Some? then p.1.value.count else 0,
           p.0.Some? && p.0.value.flag)
  }

  /** `rows` are the rows of whale_txns in the order their flags were computed in. */
  function Wallets(rows: seq<Whale>): seq<Wallet> {
    Select(OuterJoin(SentTable(rows), RecvTable(rows), SameAddress), p => WalletOf(p))
  }

  // ---- the join is one to one ------------------------------------------------------------------------------------

  lemma TablesDistinct(rows: seq<Whale>)
    ensures var s, r := SentTable(rows), RecvTable(rows);
      && (forall i, j :: 0 <= i < j < |s| ==> s[i].address != s[j].address)
      && (forall i, j :: 0 <= i < j < |r| ==> r[i].address != r[j].address)
  {
    KeysMeaning(rows, From);
    KeysMeaning(rows, To);
  }

  lemma TablesOneToOne(rows: seq<Whale>)
    ensures OneToOne(SentTable(rows), RecvTable(rows), SameAddress)
  {
    var left, right := SentTable(rows), RecvTable(rows);
    TablesDistinct(rows);
    forall s | s in left ensures |Partners(s, right, SameAddress)| <= 1 {
      PartnerUnique(s, right, SameAddress);
    }
    forall r | r in right ensures |Suitors(left, r, SameAddress)| <= 1 {
      SuitorUnique(left, r, SameAddress);
    }
  }

  // ---- conservation ------------------------------------------------------------------------------------------------

  function SentEth(w: Wallet): int { w.sent }
  function RecvEth(w: Wallet): int { w.recv }
  function NetFlow(w: Wallet): int { w.recv - w.sent }
  function Activity(w: Wallet): int { w.sent + w.recv }

  lemma SentTotal(rows: seq<Whale>)
    ensures Sum(SentTable(rows), (s: Sent) => s.total) == Sum(rows, Value)
  {
    KeysMeaning(rows, From);
    var g := (a: Option<string>) => SentOf(rows, a).total;
    SumOver(Keys(rows, From), a => SentOf(rows, a), (s: Sent) => s.total, g);
    GroupsConserve(rows, From, Value, Keys(rows, From), g);
  }

  lemma RecvTotal(rows: seq<Whale>)
    ensures Sum(RecvTable(rows), (r: Recv) => r.total) == Sum(rows, Value)
  {
    KeysMeaning(rows, To);
    var g := (a: Option<string>) => RecvOf(rows, a).total;
    SumOver(Keys(rows, To), a => RecvOf(rows, a), (r: Recv) => r.total, g);
    GroupsConserve(rows, To, Value, Keys(rows, To), g);
  }

  /** All that was sent, and all that was received, is in the summary: net flows cancel, activity counts it twice. */
  lemma WalletsConserve(rows: seq<Whale>)
    ensures Sum(Wallets(rows), SentEth) == Sum(Wallets(rows), RecvEth) == Sum(rows, Value)
    ensures Sum(Wallets(rows), NetFlow) == 0 && Sum(Wallets(rows), Activity) == 2 * Sum(rows, Value)
  {
    var left, right := SentTable(rows), RecvTable(rows);
    var joined := OuterJoin(left, right, SameAddress);
    var sent, recv := (s: Sent) => s.total, (r: Recv) => r.total;
    TablesOneToOne(rows);
    OuterJoinConserves(left, right, SameAddress, sent, recv);
    SumOver(joined, p => WalletOf(p), SentEth, p => LeftPart(p, sent));
    SumOver(joined, p => WalletOf(p), RecvEth, p => RightPart(p, recv));
    SentTotal(rows);
    RecvTotal(rows);
    SumPlus(Wallets(rows), SentEth, NetFlow, RecvEth);
    SumPlus(Wallets(rows), SentEth, RecvEth, Activity);
  }

  // ---- one row for each address ----------------------------------------------------------------------------------

  function SenderRow(rows: seq<Whale>, a: Option<string>): Wallet {
    var received := if a.Some? then ReceivedBy(rows, a) else [];
    Wallet(a, Sum(SentBy(rows, a), Value), Sum(received, Value), |SentBy(rows, a)|, |received|, GoldFlag(rows, a))
  }

  function ReceiverRow(rows: seq<Whale>, b: Option<string>): Wallet {
    Wallet(b, 0, Sum(ReceivedBy(rows, b), Value), 0, |ReceivedBy(rows, b)|, false)
  }

  /** The receivers the join finds no sender for. */
  function OnlyReceivers(rows: seq<Whale>): seq<Option<string>> {
    Where(Keys(rows, To), (b: Option<string>) => b.None? || b !in Keys(rows, From))
  }

  lemma ReceiptsOfSender(rows: seq<Whale>, a: Option<string>)
    ensures Match(SentOf(rows, a), RecvTable(rows), SameAddress) ==
      if a.Some? && a in Keys(rows, To) then Some(RecvOf(rows, a)) else None
  {
    var s, right := SentOf(rows, a), RecvTable(rows);
    TablesDistinct(rows);
    PartnerUnique(s, right, SameAddress);
    if a.Some? && a in Keys(rows, To) {
      var i :| 0 <= i < |Keys(rows, To)| && Keys(rows, To)[i] == a;
      assert SameAddress(s, right[i]);
    }
  }

  lemma LoneReceivers(rows: seq<Whale>)
    ensures Alone(SentTable(rows), RecvTable(rows), SameAddress) == Select(OnlyReceivers(rows), b => RecvOf(rows, b))
  {
    var left := SentTable(rows);
    TablesDistinct(rows);
    forall b | b in Keys(rows, To)
      ensures (Suitors(left, RecvOf(rows, b), SameAddress) == []) == (b.None? || b !in Keys(rows, From))
    {
      SuitorUnique(left, RecvOf(rows, b), SameAddress);
      if b.Some? && b in Keys(rows, From) {
        var i :| 0 <= i < |Keys(rows, From)| && Keys(rows, From)[i] == b;
        assert SameAddress(left[i], RecvOf(rows, b));
      }
    }
    WhereSelect(Keys(rows, To), b => RecvOf(rows, b), r => Suitors(left, r, SameAddress) == [],
                (b: Option<string>) => b.None? || b !in Keys(rows, From));
  }

  lemma SenderRowIs(rows: seq<Whale>, a: Option<string>)
    ensures var s := SentOf(rows, a);
      WalletOf((Some(s), Match(s, RecvTable(rows), SameAddress))) == SenderRow(rows, a)
  {
    ReceiptsOfSender(rows, a);
    GroupEmptyIff(rows, To, a);
  }

  /** The addresses of the summary, row by row. */
  function Addresses(rows: seq<Whale>): seq<Option<string>> { Keys(rows, From) + OnlyReceivers(rows) }

  function RowAt(rows: seq<Whale>, i: nat): Wallet
    requires i < |Addresses(rows)|
  {
    var n := |Keys(rows, From)|;
    if i < n then SenderRow(rows, Keys(rows, From)[i]) else ReceiverRow(rows, OnlyReceivers(rows)[i - n])
  }

  lemma WalletCount(rows: seq<Whale>)
    ensures |Wallets(rows)| == |Addresses(rows)|
  {
    TablesOneToOne(rows);
    OuterJoinRow(SentTable(rows), RecvTable(rows), SameAddress, 0);
    LoneReceivers(rows);
  }

  lemma SenderAt(rows: seq<Whale>, i: nat)
    requires i < |Keys(rows, From)|
    ensures |Wallets(rows)| > i && Wallets(rows)[i] == SenderRow(rows, Keys(rows, From)[i])
  {
    TablesOneToOne(rows);
    OuterJoinRow(SentTable(rows), RecvTable(rows), SameAddress, i);
    SenderRowIs(rows, Keys(rows, From)[i]);
  }

  lemma AloneAt(rows: seq<Whale>, k: nat)
    requires k < |OnlyReceivers(rows)|
    ensures var alone := Alone(SentTable(rows), RecvTable(rows), SameAddress);
      k < |alone| && alone[k] == RecvOf(rows, OnlyReceivers(rows)[k])
  {
    LoneReceivers(rows);
  }

  lemma ReceiverAt(rows: seq<Whale>, k: nat)
    requires k < |OnlyReceivers(rows)|
    ensures var i := |Keys(rows, From)| + k;
      |Wallets(rows)| > i && Wallets(rows)[i] == ReceiverRow(rows, OnlyReceivers(rows)[k])
  {
    JoinedReceiver(rows, k);
    WalletIs(rows, |Keys(rows, From)| + k);
  }

  lemma JoinedReceiver(rows: seq<Whale>, k: nat)
    requires k < |OnlyReceivers(rows)|
    ensures var i, joined := |Keys(rows, From)| + k, OuterJoin(SentTable(rows), RecvTable(rows), SameAddress);
      |joined| > i && joined[i] == (None, Some(RecvOf(rows, OnlyReceivers(rows)[k])))
  {
    TablesOneToOne(rows);
    AloneAt(rows, k);
    AloneRow(SentTable(rows), RecvTable(rows), SameAddress, k);
  }

  lemma WalletIs(rows: seq<Whale>, i: nat)
    requires i < |OuterJoin(SentTable(rows), RecvTable(rows), SameAddress)|
    ensures |Wallets(rows)| > i
    ensures Wallets(rows)[i] == WalletOf(OuterJoin(SentTable(rows), RecvTable(rows), SameAddress)[i])
  {
  }

  lemma WalletAt(rows: seq<Whale>, i: nat)
    ensures |Wallets(rows)| == |Addresses(rows)|
    ensures i < |Wallets(rows)| ==> Wallets(rows)[i] == RowAt(rows, i)
  {
    WalletCount(rows);
    if i < |Keys(rows, From)| {
      SenderAt(rows, i);
    } else if i < |Addresses(rows)| {
      ReceiverAt(rows, i - |Keys(rows, From)|);
    }
  }

  lemma {:induction false} WhereDistinct<K>(ks: seq<K>, p: K -> bool)
    requires Distinct(ks)
    ensures Distinct(Where(ks, p))
  {
    if ks != [] {
      var n := |ks| - 1;
      LastApart(ks);
      WhereDistinct(ks[..n], p);
      WhereKeeps(ks[..n], p);
      var before := Where(ks[..n], p);
      forall i | 0 <= i < |before| ensures before[i] != ks[n] {
        assert before[i] in before;
      }
    }
  }

  lemma AddressesOnce(rows: seq<Whale>)
    ensures var addresses := Addresses(rows);
      && (forall i, j :: 0 <= i < j < |addresses| && addresses[i] == addresses[j] ==> addresses[i].None?)
      && (forall a: string :: Some(a) in addresses <==> Some(a) in Keys(rows, From) || Some(a) in Keys(rows, To))
  {
    var senders, others, alone :=
      Keys(rows, From), OnlyReceivers(rows), (b: Option<string>) => b.None? || b !in Keys(rows, From);
    KeysMeaning(rows, From);
    KeysMeaning(rows, To);
    WhereDistinct(Keys(rows, To), alone);
    WhereKeeps(Keys(rows, To), alone);
    forall i, j | 0 <= i < j < |Addresses(rows)| && Addresses(rows)[i] == Addresses(rows)[j]
      ensures Addresses(rows)[i].None?
    {
      if i < |senders| <= j { assert others[j - |senders|] in others; }
    }
  }

  lemma AddressesAre(rows: seq<Whale>)
    ensures |Wallets(rows)| == |Addresses(rows)|
    ensures forall i :: 0 <= i < |Wallets(rows)| ==> Wallets(rows)[i].address == Addresses(rows)[i]
  {
    WalletCount(rows);
    forall i | 0 <= i < |Wallets(rows)| ensures Wallets(rows)[i].address == Addresses(rows)[i] {
      WalletAt(rows, i);
    }
  }

  lemma Listed(wallets: seq<Wallet>, addresses: seq<Option<string>>, a: Option<string>)
    requires |wallets| == |addresses|
    requires forall i :: 0 <= i < |wallets| ==> wallets[i].address == addresses[i]
    ensures (exists i :: 0 <= i < |wallets| && wallets[i].address == a) <==> a in addresses
  {
    if a in addresses {
      var i :| 0 <= i < |addresses| && addresses[i] == a;
      assert wallets[i].address == a;
    }
  }

  /** No address has two rows, and the addresses are those that sent or received. */
  lemma OneRowPerAddress(rows: seq<Whale>, a: string)
    ensures forall i, j :: 0 <= i < j < |Wallets(rows)| && Wallets(rows)[i].address == Wallets(rows)[j].address
              ==> Wallets(rows)[i].address.None?
    ensures (exists i :: 0 <= i < |Wallets(rows)| && Wallets(rows)[i].address == Some(a))
       <==> (exists w :: w in rows && (w.from == Some(a) || w.to == Some(a)))
  {
    AddressesAre(rows);
    AddressesOnce(rows);
    Listed(Wallets(rows), Addresses(rows), Some(a));
    Traded(rows, Some(a));
  }

  lemma Traded(rows: seq<Whale>, a: Option<string>)
    ensures a in Keys(rows, From) || a in Keys(rows, To) <==> exists w :: w in rows && (w.from == a || w.to == a)
  {
    KeysMeaning(rows, From);
    KeysMeaning(rows, To);
  }

  lemma OthersOnlyReceive(rows: seq<Whale>, k: nat)
    requires k < |OnlyReceivers(rows)|
    ensures var b := OnlyReceivers(rows)[k]; b in Keys(rows, To) && (b.None? || b !in Keys(rows, From))
  {
    WhereKeeps(Keys(rows, To), (b: Option<string>) => b.None? || b !in Keys(rows, From));
    assert OnlyReceivers(rows)[k] in OnlyReceivers(rows);
  }

  lemma LoneSendsNothing(rows: seq<Whale>, k: nat)
    requires k < |OnlyReceivers(rows)| && OnlyReceivers(rows)[k].Some?
    ensures SentBy(rows, OnlyReceivers(rows)[k]) == [] && !GoldFlag(rows, OnlyReceivers(rows)[k])
  {
    OthersOnlyReceive(rows, k);
    GroupEmptyIff(rows, From, OnlyReceivers(rows)[k]);
    GroupKeeps(rows, From, OnlyReceivers(rows)[k]);
  }

  /** Every address's row carries the day's totals for it, whatever order the flags were computed in. */
  lemma RowMeaning(day: seq<Whale>, placed: seq<Whale>, i: nat)
    requires NonNegative(day) && Placed(day, placed) && i < |Wallets(placed)| && Wallets(placed)[i].address.Some?
    ensures Wallets(placed)[i] == DayOf(day, Wallets(placed)[i].address)
  {
    WalletFound(placed, i);
    var a := Wallets(placed)[i].address;
    GroupOfBag(day, placed, From, a, Value);
    GroupOfBag(day, placed, To, a, Value);
    FlagIsOfTotals(day, placed, a);
  }

  /** What a day holds for one address. */
  function DayOf(day: seq<Whale>, a: Option<string>): Wallet {
    var sent, received := SentBy(day, a), ReceivedBy(day, a);
    Wallet(a, Sum(sent, Value), Sum(received, Value), |sent|, |received|,
           |sent| >= 5 && Sum(sent, Value) >= 500 * WEI_PER_ETH)
  }

  function FullRow(rows: seq<Whale>, a: Option<string>): Wallet {
    var sent, received := SentBy(rows, a), ReceivedBy(rows, a);
    Wallet(a, Sum(sent, Value), Sum(received, Value), |sent|, |received|, GoldFlag(rows, a))
  }

  lemma ReceiverIsFull(rows: seq<Whale>, k: nat)
    requires k < |OnlyReceivers(rows)| && OnlyReceivers(rows)[k].Some?
    ensures ReceiverRow(rows, OnlyReceivers(rows)[k]) == FullRow(rows, OnlyReceivers(rows)[k])
  {
    LoneSendsNothing(rows, k);
  }

  lemma RowFound(rows: seq<Whale>, i: nat)
    requires i < |Addresses(rows)| && RowAt(rows, i).address.Some?
    ensures RowAt(rows, i) == FullRow(rows, RowAt(rows, i).address)
  {
    if i >= |Keys(rows, From)| { ReceiverIsFull(rows, i - |Keys(rows, From)|); }
  }

  lemma WalletFound(rows: seq<Whale>, i: nat)
    requires i < |Wallets(rows)| && Wallets(rows)[i].address.Some?
    ensures Wallets(rows)[i] == FullRow(rows, Wallets(rows)[i].address)
  {
    WalletAt(rows, i);
    RowFound(rows, i);
  }

  /** Contract creations have no receiver; what they carry is in a row without an address, which sent nothing. */
  lemma CreationsHaveTheirRow(rows: seq<Whale>)
    requires exists w :: w in rows && w.to.None?
    ensures exists i :: 0 <= i < |Wallets(rows)| && Wallets(rows)[i] == ReceiverRow(rows, None)
  {
    KeysMeaning(rows, To);
    var w :| w in rows && w.to.None?;
    assert To(w) == None;
    WhereKeeps(Keys(rows, To), (b: Option<string>) => b.None? || b !in Keys(rows, From));
    assert None in OnlyReceivers(rows);
    var k :| 0 <= k < |OnlyReceivers(rows)| && OnlyReceivers(rows)[k] == None;
    ReceiverAt(rows, k);
  }
}
