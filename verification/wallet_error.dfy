/** The closed taxonomy of errors a wallet operation can report. */
module WalletErrors {
  import opened Ints

  /**
   * One case per variant of the source enum, each carrying exactly its
   * payload. `AddCoinError` and `RemoveCoinError` are generic fallbacks that
   * no operation produces; the overflow variants carry the balance before the
   * operation and the requested amount; the negative-balance variant also
   * records the caller's `allow_negative_balance` flag.
   */
  datatype WalletError =
    | AddCoinError
    | AddZeroCoinError
    | AddCoinOverflowError(currentAmount: int64, addedAmount: uint32)
    | RemoveCoinError
    | RemoveZeroCoinError
    | RemoveCoinOverflowError(currentAmount: int64, removedAmount: uint32)
    | RemoveCoinNegativeBalanceError(currentAmount: int64, removedAmount: uint32, negativeBalanceAllowed: bool)
  {
    /** The two fallback variants whose messages say they should never happen. */
    predicate IsFallback() {
      AddCoinError? || RemoveCoinError?
    }
  }
}
