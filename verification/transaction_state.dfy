/**
 * The lifecycle state of a transaction: one of five variants, each stamped
 * with a `u64` timestamp, compared by a hand-written equality.
 */
module TransactionStates {
  import opened Ints

  datatype TransactionState =
    | Created(timestamp: uint64)
    | OnProcess(timestamp: uint64)
    | Completed(timestamp: uint64)
    | Failed(timestamp: uint64)
    | Blocked(timestamp: uint64)

  /** True iff `s` and `t` are the same variant, whatever their timestamps. */
  predicate SameVariant(s: TransactionState, t: TransactionState) {
    || (s.Created? && t.Created?)
    || (s.OnProcess? && t.OnProcess?)
    || (s.Completed? && t.Completed?)
    || (s.Failed? && t.Failed?)
    || (s.Blocked? && t.Blocked?)
  }

  /**
   * `eq`: equal exactly when the variants agree and so do the timestamps,
   * which makes it the same relation as structural equality.
   */
  function Eq(s: TransactionState, t: TransactionState): (r: bool)
    ensures r <==> SameVariant(s, t) && s.timestamp == t.timestamp
    ensures r <==> s == t
  {
    match (s, t)
    case (Created(a), Created(b)) => a == b
    case (OnProcess(a), OnProcess(b)) => a == b
    case (Completed(a), Completed(b)) => a == b
    case (Failed(a), Failed(b)) => a == b
    case (Blocked(a), Blocked(b)) => a == b
    case _ => false
  }

  /** `ne`: the negation of `eq`, so unequal exactly when structurally different. */
  function Ne(s: TransactionState, t: TransactionState): (r: bool)
    ensures r <==> s != t
  {
    !Eq(s, t)
  }

  /** `eq` is reflexive, symmetric and transitive. */
  lemma EqIsEquivalence(s: TransactionState, t: TransactionState, u: TransactionState)
    ensures Eq(s, s)
    ensures Eq(s, t) == Eq(t, s)
    ensures Eq(s, t) && Eq(t, u) ==> Eq(s, u)
  {
  }

  /** States of different variants are unequal, even with the same timestamp. */
  lemma DifferentVariantsUnequal(s: TransactionState, t: TransactionState)
    requires !SameVariant(s, t)
    ensures !Eq(s, t) && Ne(s, t)
  {
  }

  /** States of the same variant with different timestamps are unequal. */
  lemma DifferentTimestampsUnequal(s: TransactionState, t: TransactionState)
    requires s.timestamp != t.timestamp
    ensures !Eq(s, t) && Ne(s, t)
  {
  }

  /**
   * `Vec::contains` over a state history: whether some entry is `eq` to `s`.
   * Because `eq` is structural equality, this is membership.
   */
  function HistoryContains(history: seq<TransactionState>, s: TransactionState): (r: bool)
    ensures r <==> s in history
    ensures r <==> exists i :: 0 <= i < |history| && Eq(history[i], s)
  {
    if history == [] then false
    else Eq(history[0], s) || HistoryContains(history[1..], s)
  }
}
