/** The Kafka records and the pydantic models they become (src/consumer/models.py). */
module Messages {
  import opened Wrappers

  /** The value found under the first of the three timestamp aliases. */
  datatype RawStamp =
    | Absent                 // none of the aliases is a key of the message
    | Falsy                  // null, 0, 0.0, "" or false
    | Numeric(seconds: int)  // truthy, and float() accepts it (the text "0" is Numeric(0))
    | Garbage                // truthy, and float() or fromtimestamp() rejects it

  // The instants a datetime can hold, as seconds since 1970: years 1 to 9999.
  const MIN_SECONDS := -62135596800
  const MAX_SECONDS := 253402300799

  /** `now` is what the clock shows when the fallback is taken. */
  function ParseEthTimestamp(v: RawStamp, now: int): int {
    match v
    case Numeric(s) => if MIN_SECONDS <= s <= MAX_SECONDS then s else now
    case _ => now
  }

  /** The timestamps that do not depend on when they are parsed. */
  predicate Stable(v: RawStamp) {
    v.Numeric? && MIN_SECONDS <= v.seconds <= MAX_SECONDS
  }

  lemma ClockFreeIffStable(v: RawStamp)
    ensures (forall a, b :: ParseEthTimestamp(v, a) == ParseEthTimestamp(v, b)) <==> Stable(v)
    ensures Stable(v) <==> v.Numeric? && -62_135_596_800 <= v.seconds <= 253_402_300_799
    ensures ParseEthTimestamp(v, 0) == if Stable(v) then v.seconds else 0
  {
    if !Stable(v) {
      assert ParseEthTimestamp(v, 0) != ParseEthTimestamp(v, 1);
    }
  }

  datatype TxBody = TxBody(hash: string, stamp: RawStamp, from: string, to: Option<string>, value: int, gasPrice: int)

  datatype TransferBody = TransferBody(
    hash: string, logIndex: int, stamp: RawStamp, block: int, token: string, from: string, to: string, value: int)

  /** A record as the model of its topic sees it. */
  datatype Message =
    | Tombstone     // no value, or JSON null
    | Unparseable   // not JSON text
    | NotAnObject   // JSON, but neither null nor an object
    | Malformed     // an object its model rejects
    | BlockHeader(number: int, time: int)
    | Transaction(tx: TxBody)
    | TokenTransfer(transfer: TransferBody)

  datatype Tx = Tx(hash: string, timestamp: int, from: string, to: Option<string>, value: int, gasPrice: int)

  /** A TokenTransferModel; its timestamp may still be unknown. */
  datatype TransferModel = TransferModel(
    hash: string, logIndex: int, timestamp: Option<int>, block: int, token: string, from: string, to: string, value: int)

  /** A transfer ready to be stored: the columns of token_transfers. */
  datatype Transfer = Transfer(
    hash: string, logIndex: int, timestamp: int, token: string, from: string, to: string, value: int)

  /** TransactionModel(**data): the timestamp is required, so its absence is a ValidationError. */
  function DecodeTx(b: TxBody, now: int): Option<Tx> {
    if b.stamp.Absent? then None
    else Some(Tx(b.hash, ParseEthTimestamp(b.stamp, now), b.from, b.to, b.value, b.gasPrice))
  }

  /** TokenTransferModel(**data): the validator runs only when a timestamp key is present. */
  function DecodeTransfer(b: TransferBody, now: int): TransferModel {
    TransferModel(b.hash, b.logIndex,
                  if b.stamp.Absent? then None else Some(ParseEthTimestamp(b.stamp, now)),
                  b.block, b.token, b.from, b.to, b.value)
  }

  function Stamped(m: TransferModel, time: int): Transfer {
    Transfer(m.hash, m.logIndex, time, m.token, m.from, m.to, m.value)
  }

  /** `tx` is what some clock reading makes of `b`. */
  predicate Reads(b: TxBody, tx: Tx) {
    !b.stamp.Absent? && tx == Tx(b.hash, tx.timestamp, b.from, b.to, b.value, b.gasPrice) &&
    (Stable(b.stamp) ==> tx.timestamp == b.stamp.seconds)
  }

  lemma ReadsIffDecoded(b: TxBody, tx: Tx)
    ensures Reads(b, tx) <==> exists now :: DecodeTx(b, now) == Some(tx)
  {
    if Reads(b, tx) {
      assert DecodeTx(b, tx.timestamp) == Some(tx);
    }
  }
}
