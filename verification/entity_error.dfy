/** The error an entity operation reports: a wallet error, wrapped. */
module EntityErrors {
  import opened WalletErrors

  /** The single variant: every entity error is a wrapped wallet error, and nothing else. */
  datatype EntityError = WalletOperationError(error: WalletError)

  /** Unwrapping gives back the whole wallet error, so wrapping loses nothing. */
  function Unwrap(e: EntityError): (w: WalletError)
    ensures WalletOperationError(w) == e
  {
    match e
    case WalletOperationError(inner) => inner
  }

  /** Two entity errors are equal exactly when the wallet errors inside them are. */
  lemma WrapIsInjective(a: WalletError, b: WalletError)
    ensures WalletOperationError(a) == WalletOperationError(b) <==> a == b
    ensures Unwrap(WalletOperationError(a)) == a
  {
  }
}
