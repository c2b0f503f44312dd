/**
 * The wallet scenarios of the repository's test suite, each performed on the
 * `Wallet` class as a Dafny method and proved to end as the test expects.
 */
module WalletExamples {
  import opened Wrappers
  import opened Ints
  import opened WalletErrors
  import opened Wallets

  /** -5 plus 100 succeeds with balance 95. */
  method AddCoinsFromNegative() returns (r: Result<(), WalletError>, balance: int64)
    ensures r.Ok? && balance == 95
  {
    var w := new Wallet(-5);
    r := w.AddCoins(100);
    balance := w.GetBalance();
  }

  /** Adding zero fails with `AddZeroCoinError` and keeps the balance. */
  method AddZeroCoins() returns (r: Result<(), WalletError>, balance: int64)
    ensures r == Err(AddZeroCoinError) && balance == 0
  {
    var w := new Wallet(0);
    r := w.AddCoins(0);
    balance := w.GetBalance();
  }

  /** Adding 10 to `i64::MAX` fails with an overflow error carrying both operands. */
  method AddCoinsOverflowAtMax() returns (r: Result<(), WalletError>, balance: int64)
    ensures r == Err(AddCoinOverflowError(INT64_MAX, 10)) && balance == INT64_MAX
  {
    var w := new Wallet(INT64_MAX);
    r := w.AddCoins(10);
    balance := w.GetBalance();
  }

  /** 100 minus 50 without the flag gives 50; minus 50 again with the flag gives 0. */
  method RemoveCoinsTwice() returns (first: Result<(), WalletError>, afterFirst: int64,
                                     second: Result<(), WalletError>, afterSecond: int64)
    ensures first.Ok? && afterFirst == 50
    ensures second.Ok? && afterSecond == 0
  {
    var w := new Wallet(100);
    first := w.RemoveCoins(50, false);
    afterFirst := w.GetBalance();
    second := w.RemoveCoins(50, true);
    afterSecond := w.GetBalance();
  }

  /** With the flag set, -5 minus 50 succeeds with balance -55. */
  method RemoveCoinsIntoNegative() returns (r: Result<(), WalletError>, balance: int64)
    ensures r.Ok? && balance == -55
  {
    var w := new Wallet(-5);
    r := w.RemoveCoins(50, true);
    balance := w.GetBalance();
  }

  /** Removing zero fails with `RemoveZeroCoinError` for both flag values. */
  method RemoveZeroCoins() returns (withoutFlag: Result<(), WalletError>, withFlag: Result<(), WalletError>, balance: int64)
    ensures withoutFlag == Err(RemoveZeroCoinError) && withFlag == Err(RemoveZeroCoinError)
    ensures balance == 100
  {
    var w := new Wallet(100);
    withoutFlag := w.RemoveCoins(0, false);
    withFlag := w.RemoveCoins(0, true);
    balance := w.GetBalance();
  }

  /** Removing 10 from `i64::MIN` is an overflow for both flag values. */
  method RemoveCoinsOverflowAtMin() returns (withFlag: Result<(), WalletError>, withoutFlag: Result<(), WalletError>, balance: int64)
    ensures withFlag == Err(RemoveCoinOverflowError(INT64_MIN, 10))
    ensures withoutFlag == Err(RemoveCoinOverflowError(INT64_MIN, 10))
    ensures balance == INT64_MIN
  {
    var w := new Wallet(INT64_MIN);
    withFlag := w.RemoveCoins(10, true);
    withoutFlag := w.RemoveCoins(10, false);
    balance := w.GetBalance();
  }

  /** Without the flag, 0 minus 10 is refused as a negative balance. */
  method RemoveCoinsNegativeBalanceRefused() returns (r: Result<(), WalletError>, balance: int64)
    ensures r == Err(RemoveCoinNegativeBalanceError(0, 10, false)) && balance == 0
  {
    var w := new Wallet(0);
    r := w.RemoveCoins(10, false);
    balance := w.GetBalance();
  }
}
