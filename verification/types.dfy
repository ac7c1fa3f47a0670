/** Shared vocabulary of the pending-transaction pipeline: transaction
    references, the detail the enrichment lookup returns, and the three
    classification tags. */
module TxTypes {

  /** The usual Some/None wrapper, used for the optional fields of a
      transaction detail. */
  datatype Option<+T> = None | Some(value: T)

  /** An opaque transaction hash as delivered by the pending-transaction feed. */
  type TxRef = string

  /** What a lookup returns for one hash: the calldata as a `0x…` hex string,
      the native value attached (arbitrary precision), and the destination.
      Each field may be missing. */
  datatype TxDetail = TxDetail(input: Option<string>, value: Option<nat>, to: Option<string>)

  /** Outcome of the external lookup of one hash: a detail, an empty answer,
      or a lookup that threw. */
  datatype Lookup = Found(tx: TxDetail) | NotFound | Failed

  /** Directional intent of one transaction with respect to the native asset. */
  datatype Tag = Buy | Sell | Neutral
}
