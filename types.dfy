/** The transaction record kept for a subscribed address (types/types.go). */
module Types {

  /** Four opaque strings copied from a block's transaction object. `value` stays
      the chain's hex string: it is never read as a number. */
  datatype Transaction = Transaction(hash: string, from: string, to: string, value: string)
}
