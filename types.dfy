/**
  Identifier and amount types shared by the payments engine
  (src/lib/shared_types.rs), plus the usual Option datatype.
 */
module Types {

  /** A client identifier: an unsigned 16-bit integer. */
  type ClientId = c: int | 0 <= c < 0x1_0000

  /** A transaction identifier: an unsigned 32-bit integer. */
  type TxId = t: int | 0 <= t < 0x1_0000_0000

  /**
    An amount, already scaled to ten-thousandths of a unit. The source keeps
    it in a signed 64-bit integer and never checks `+=`/`-=` for overflow; the
    model uses unbounded integers.
   */
  type AmountValue = int

  datatype Option<T> = None | Some(value: T)
}
