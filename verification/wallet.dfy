/**
 * A wallet: one signed 64-bit coin balance, changed in place by checked add
 * and remove operations that return a `Result` instead of wrapping around.
 *
 * `AddCoinsStep` and `RemoveCoinsStep` say, as values, what one operation
 * does to a balance; the `Wallet` class performs the operations in place and
 * is proved to agree with them.
 */
module Wallets {
  import opened Wrappers
  import opened Ints
  import opened WalletErrors

  /**
   * What `add_coins(amount)` does to a wallet holding `balance`: the new
   * balance, or the error it reports (the balance then stays as it was).
   * A zero amount is refused; otherwise the sum is committed unless it leaves
   * the `i64` range, in which case the overflow error carries the balance
   * before the call and the amount.
   */
  function AddCoinsStep(balance: int64, amount: uint32): (r: Result<int64, WalletError>)
    ensures amount == 0 ==> r == Err(AddZeroCoinError)
    ensures amount > 0 && balance + amount <= INT64_MAX ==> r == Ok(balance + amount)
    ensures amount > 0 && balance + amount > INT64_MAX ==> r == Err(AddCoinOverflowError(balance, amount))
    ensures r.Err? ==> r.error.AddZeroCoinError? || r.error.AddCoinOverflowError?
  {
    if amount == 0 then
      Err(AddZeroCoinError)
    else
      match CheckedAdd(balance, amount)
      case Some(total) => Ok(total)
      case None => Err(AddCoinOverflowError(balance, amount))
  }

  /**
   * What `remove_coins(amount, allowNegativeBalance)` does to a wallet holding
   * `balance`. A zero amount is refused whatever the flag; a difference below
   * the `i64` range is refused as an overflow whatever the flag (this check
   * comes first); a negative difference is refused unless the caller allows a
   * negative balance; otherwise the difference is committed.
   */
  function RemoveCoinsStep(balance: int64, amount: uint32, allowNegativeBalance: bool): (r: Result<int64, WalletError>)
    ensures amount == 0 ==> r == Err(RemoveZeroCoinError)
    ensures amount > 0 && balance - amount < INT64_MIN ==> r == Err(RemoveCoinOverflowError(balance, amount))
    ensures amount > 0 && INT64_MIN <= balance - amount < 0 && !allowNegativeBalance ==>
              r == Err(RemoveCoinNegativeBalanceError(balance, amount, false))
    ensures amount > 0 && INT64_MIN <= balance - amount && (0 <= balance - amount || allowNegativeBalance) ==>
              r == Ok(balance - amount)
    ensures r.Err? ==> r.error.RemoveZeroCoinError? || r.error.RemoveCoinOverflowError? || r.error.RemoveCoinNegativeBalanceError?
    ensures r.Ok? && !allowNegativeBalance ==> 0 <= r.value
  {
    if amount == 0 then
      Err(RemoveZeroCoinError)
    else
      match CheckedSub(balance, amount)
      case None => Err(RemoveCoinOverflowError(balance, amount))
      case Some(rest) =>
        if rest < 0 && !allowNegativeBalance then
          Err(RemoveCoinNegativeBalanceError(balance, amount, allowNegativeBalance))
        else
          Ok(rest)
  }

  /** Neither operation ever reports one of the two fallback variants. */
  lemma FallbackErrorsNeverProduced(balance: int64, amount: uint32, allowNegativeBalance: bool)
    ensures AddCoinsStep(balance, amount).Err? ==> !AddCoinsStep(balance, amount).error.IsFallback()
    ensures RemoveCoinsStep(balance, amount, allowNegativeBalance).Err? ==>
              !RemoveCoinsStep(balance, amount, allowNegativeBalance).error.IsFallback()
  {
  }

  /**
   * `RemoveCoinNegativeBalanceError` is reported only when the caller did not
   * allow a negative balance, and it records that flag as `false`.
   */
  lemma NegativeBalanceErrorOnlyWithoutFlag(balance: int64, amount: uint32, allowNegativeBalance: bool)
    requires RemoveCoinsStep(balance, amount, allowNegativeBalance).Err?
    requires RemoveCoinsStep(balance, amount, allowNegativeBalance).error.RemoveCoinNegativeBalanceError?
    ensures !allowNegativeBalance
    ensures !RemoveCoinsStep(balance, amount, allowNegativeBalance).error.negativeBalanceAllowed
  {
  }

  /** A successful add is undone by removing the same amount with a negative balance allowed. */
  lemma AddThenRemoveRestores(balance: int64, amount: uint32)
    requires AddCoinsStep(balance, amount).Ok?
    ensures RemoveCoinsStep(AddCoinsStep(balance, amount).value, amount, true) == Ok(balance)
    ensures RemoveCoinsStep(AddCoinsStep(balance, amount).value, amount, false) ==
              if balance < 0 then Err(RemoveCoinNegativeBalanceError(balance + amount, amount, false)) else Ok(balance)
  {
  }

  /** A successful remove is undone by adding the same amount back. */
  lemma RemoveThenAddRestores(balance: int64, amount: uint32, allowNegativeBalance: bool)
    requires RemoveCoinsStep(balance, amount, allowNegativeBalance).Ok?
    ensures AddCoinsStep(RemoveCoinsStep(balance, amount, allowNegativeBalance).value, amount) == Ok(balance)
  {
  }

  /** `Wallet`: the balance `n_coins`, updated in place. */
  class Wallet {
    var nCoins: int64

    /** `Wallet::new`: stores any `i64` balance unchanged, negative ones included. */
    constructor (nCoins: int64)
      ensures this.nCoins == nCoins
      ensures GetBalance() == nCoins
    {
      this.nCoins := nCoins;
    }

    /** `get_balance`: the current balance. */
    function GetBalance(): int64
      reads this
    {
      nCoins
    }

    /** `clone`: an independent wallet with the same balance. */
    method Clone() returns (w: Wallet)
      ensures fresh(w)
      ensures w.nCoins == nCoins
    {
      w := new Wallet(nCoins);
    }

    /**
     * `add_coins`: the balance is assigned only on the success branch, so a
     * failed call leaves it untouched.
     */
    method AddCoins(amount: uint32) returns (r: Result<(), WalletError>)
      modifies this
      ensures r.Ok? <==> AddCoinsStep(old(nCoins), amount).Ok?
      ensures r.Ok? ==> nCoins == AddCoinsStep(old(nCoins), amount).value == old(nCoins) + amount
      ensures r.Err? ==> r.error == AddCoinsStep(old(nCoins), amount).error && nCoins == old(nCoins)
    {
      if amount == 0 {
        r := Err(AddZeroCoinError);
      } else {
        match CheckedAdd(nCoins, amount)
        case Some(total) =>
          nCoins := total;
          r := Ok(());
        case None =>
          r := Err(AddCoinOverflowError(nCoins, amount));
      }
    }

    /**
     * `remove_coins`: checks zero, then overflow, then the negative-balance
     * rule, and assigns the balance only when all of them pass.
     */
    method RemoveCoins(amount: uint32, allowNegativeBalance: bool) returns (r: Result<(), WalletError>)
      modifies this
      ensures r.Ok? <==> RemoveCoinsStep(old(nCoins), amount, allowNegativeBalance).Ok?
      ensures r.Ok? ==> nCoins == RemoveCoinsStep(old(nCoins), amount, allowNegativeBalance).value == old(nCoins) - amount
      ensures r.Err? ==> r.error == RemoveCoinsStep(old(nCoins), amount, allowNegativeBalance).error && nCoins == old(nCoins)
    {
      if amount == 0 {
        r := Err(RemoveZeroCoinError);
      } else {
        match CheckedSub(nCoins, amount)
        case None =>
          r := Err(RemoveCoinOverflowError(nCoins, amount));
        case Some(rest) =>
          if rest < 0 && !allowNegativeBalance {
            r := Err(RemoveCoinNegativeBalanceError(nCoins, amount, allowNegativeBalance));
          } else {
            nCoins := rest;
            r := Ok(());
          }
      }
    }
  }
}
