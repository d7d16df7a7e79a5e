/**
  Transaction records (src/lib/transaction.rs): the record type, the five
  transaction kinds and the decoding of a kind from its textual name.
 */
module Records {
  import opened Types

  /** The kind of a transaction. */
  datatype TxType = Deposit | Withdrawal | Dispute | Resolve | Chargeback

  /**
    One transaction record. `kind`, `client`, `tx` and `amount` come from the
    payment processor; `disputed` is internal state, false when a record is
    decoded and flipped only while the record sits in the bank's sheet.
   */
  datatype Tx = Tx(kind: TxType, client: ClientId, tx: TxId, amount: AmountValue, disputed: bool)

  /** The exact, case-sensitive names the decoder accepts. */
  const KindNames: set<string> := {"deposit", "withdrawal", "dispute", "resolve", "chargeback"}

  /** The name under which each kind is written in the input. */
  function KindName(k: TxType): (s: string)
    ensures s in KindNames
  {
    match k
    case Deposit => "deposit"
    case Withdrawal => "withdrawal"
    case Dispute => "dispute"
    case Resolve => "resolve"
    case Chargeback => "chargeback"
  }

  /**
    Decodes a kind from its name. `None` stands for the panic the source
    raises on any other string.
   */
  function ParseTxType(s: string): (r: Option<TxType>)
    ensures r.Some? <==> s in KindNames
    ensures r.Some? ==> KindName(r.value) == s
  {
    if s == "deposit" then Some(Deposit)
    else if s == "withdrawal" then Some(Withdrawal)
    else if s == "dispute" then Some(Dispute)
    else if s == "resolve" then Some(Resolve)
    else if s == "chargeback" then Some(Chargeback)
    else None
  }

  /** Decoding inverts naming, and no two kinds share a name. */
  lemma ParseKindName(k: TxType)
    ensures ParseTxType(KindName(k)) == Some(k)
  {
  }

  /** A row of the input stream, with its amount already scaled. */
  datatype Row = Row(kind: string, client: ClientId, tx: TxId, amount: AmountValue)

  /**
    Decodes one row into a record. The `disputed` flag is not read from the
    input and starts out false.
   */
  function DecodeRow(row: Row): (r: Option<Tx>)
    ensures r.Some? <==> row.kind in KindNames
    ensures r.Some? ==> KindName(r.value.kind) == row.kind && !r.value.disputed
    ensures r.Some? ==> r.value.client == row.client && r.value.tx == row.tx && r.value.amount == row.amount
  {
    match ParseTxType(row.kind)
    case Some(k) => Some(Tx(k, row.client, row.tx, row.amount, false))
    case None => None
  }

  /**
    The records a stream hands to processing: since an unrecognised kind
    panics inside the reader, processing of that stream stops at the first
    row that does not decode.
   */
  function DecodeRecords(rows: seq<Row>): (txs: seq<Tx>)
    ensures |txs| <= |rows|
    ensures forall i :: 0 <= i < |txs| ==> DecodeRow(rows[i]) == Some(txs[i])
    ensures |txs| < |rows| ==> DecodeRow(rows[|txs|]).None?
  {
    if rows == [] then []
    else match DecodeRow(rows[0])
      case None => []
      case Some(t) =>
        var rest := DecodeRecords(rows[1..]);
        assert forall i :: 1 <= i < |rows| ==> rows[i] == rows[1..][i - 1];
        [t] + rest
  }
}
