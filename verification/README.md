# banana_coin ledger core, modelled in Dafny

This project models the core of the banana_coin ledger library: a `Wallet`
that holds one signed 64-bit coin balance, an `Entity` (a person or
organisation) that owns one wallet, the two closed error taxonomies
`WalletError` and `EntityError`, and the immutable `Transaction` record with
its timestamped `TransactionState`.

The Rust integer types are modelled as ranges over `int` (module `Ints`):
`int64` for `i64` balances, `uint32` for `u32` amounts and `uint64` for `u64`
timestamps. `i64::checked_add` and `i64::checked_sub` are written out as
`CheckedAdd` and `CheckedSub`, which return `None` exactly when the exact
result leaves the `i64` range. Nothing wraps around silently.

Layout, one file per source file:

- `ints.dfy` and `wrappers.dfy` hold the integer ranges, checked arithmetic, `Option` and `Result`.
- `wallet_error.dfy` models `src/error/wallet_error.rs`.
- `wallet.dfy` models `src/model/wallet.rs`. The pure functions `AddCoinsStep` and `RemoveCoinsStep` say what one operation does to a balance. The class `Wallet` performs the operations in place and is proved to agree with them.
- `wallet_examples.dfy` holds the scenarios of `tests/test_banana_coin/test_wallet.rs`, each performed on the `Wallet` class as a Dafny method and proved to end as the test expects.
- `entity_error.dfy` models `src/error/entity_error.rs`.
- `entity.dfy` models `src/model/entity.rs`: a class whose `id` and `name` are constants and whose add/remove operations change only the owned wallet.
- `transaction_state.dfy` and `transaction.dfy` model the two transaction files.

The `src/model/wallet.rs` in the repository is older than the code that uses it.
Its `add_coins` takes an `i64`, returns nothing and panics. It also has no
`get_balance`, no `remove_coins` and no `Clone`. `entity.rs` and the test
suite, however, use a `Result`-returning API with `u32` amounts. The model
follows that API:

- `add_coins` keeps the branch structure of `wallet.rs:56-68`. The zero arm returns `AddZeroCoinError` and the failed `checked_add` returns `AddCoinOverflowError` instead of panicking. The negative-amount arm cannot occur with an unsigned amount.
- `remove_coins` follows `test_wallet.rs` and the remove variants of `WalletError`. A zero amount fails first. Next, an overflow below `i64::MIN` fails whatever the flag. Next, a negative result fails when the flag is false. Otherwise the difference is committed.

## Model

| member | source | states |
|---|---|---|
| `Wallets.AddCoinsStep` | src/model/wallet.rs:56-68 | A zero amount fails with `AddZeroCoinError`. A positive amount whose sum stays at most `i64::MAX` yields `balance + amount`. Otherwise the result is `AddCoinOverflowError(balance, amount)`, carrying the pre-call balance and the amount. No other error kind is produced. |
| `Wallets.RemoveCoinsStep` | tests/test_banana_coin/test_wallet.rs:40-110 | A zero amount fails with `RemoveZeroCoinError` for either flag. A difference below `i64::MIN` fails with `RemoveCoinOverflowError(balance, amount)` whatever the flag. A negative in-range difference without the flag fails with `RemoveCoinNegativeBalanceError(balance, amount, false)`. Otherwise the result is `balance - amount`. Without the flag a success is never negative. |
| `Wallets.FallbackErrorsNeverProduced` | src/error/wallet_error.rs:25-32 | Neither add nor remove ever reports `AddCoinError` or `RemoveCoinError`. |
| `Wallets.NegativeBalanceErrorOnlyWithoutFlag` | src/error/wallet_error.rs:17 | `RemoveCoinNegativeBalanceError` arises only when the caller passed `false`, and its recorded flag is `false`. |
| `Wallets.AddThenRemoveRestores` | src/model/wallet.rs:59-63 | After a successful add of `a`, removing `a` with the flag restores the old balance. Without the flag it does so only when the old balance was non-negative, and otherwise reports the negative-balance error. |
| `Wallets.RemoveThenAddRestores` | tests/test_banana_coin/test_wallet.rs:40-64 | After a successful remove of `a`, adding `a` back succeeds and restores the old balance. |
| `Wallets.Wallet.constructor` | src/model/wallet.rs:32-38 | `Wallet::new(b)` stores any `i64` balance unchanged, including negative values and both extremes. `get_balance` returns it. |
| `Wallets.Wallet.Clone` | src/model/entity.rs:126 | A clone is a fresh wallet with the same balance. |
| `Wallets.Wallet.AddCoins` | src/model/wallet.rs:51-71 | Succeeds exactly when `AddCoinsStep` does, and then the balance becomes `old + amount`. On failure it returns that same error and leaves the balance unchanged. |
| `Wallets.Wallet.RemoveCoins` | tests/test_banana_coin/test_wallet.rs:40-110 | Succeeds exactly when `RemoveCoinsStep` does, and then the balance becomes `old - amount`. On failure it returns that same error and leaves the balance unchanged. |
| `WalletExamples.AddCoinsFromNegative` | tests/test_banana_coin/test_wallet.rs:5-14 | Adding 100 to -5 succeeds with balance 95. |
| `WalletExamples.AddZeroCoins` | tests/test_banana_coin/test_wallet.rs:16-26 | Adding 0 fails with `AddZeroCoinError` and the balance stays 0. |
| `WalletExamples.AddCoinsOverflowAtMax` | tests/test_banana_coin/test_wallet.rs:28-38 | Adding 10 to `i64::MAX` fails with `AddCoinOverflowError(i64::MAX, 10)` and the balance is kept. |
| `WalletExamples.RemoveCoinsTwice` | tests/test_banana_coin/test_wallet.rs:40-53 | From 100, removing 50 without the flag gives 50, then removing 50 with the flag gives 0. |
| `WalletExamples.RemoveCoinsIntoNegative` | tests/test_banana_coin/test_wallet.rs:55-64 | With the flag, removing 50 from -5 gives -55. |
| `WalletExamples.RemoveZeroCoins` | tests/test_banana_coin/test_wallet.rs:66-81 | Removing 0 fails with `RemoveZeroCoinError` for both flag values, and the balance stays 100. |
| `WalletExamples.RemoveCoinsOverflowAtMin` | tests/test_banana_coin/test_wallet.rs:83-98 | Removing 10 from `i64::MIN` fails with `RemoveCoinOverflowError(i64::MIN, 10)` for both flag values, and the balance is kept. |
| `WalletExamples.RemoveCoinsNegativeBalanceRefused` | tests/test_banana_coin/test_wallet.rs:100-110 | Without the flag, removing 10 from 0 fails with `RemoveCoinNegativeBalanceError(0, 10, false)`, and the balance stays 0. |
| `EntityErrors.Unwrap` | src/error/entity_error.rs:10-12 | Every entity error is `WalletOperationError` around a wallet error, and wrapping the unwrapped error gives the entity error back. |
| `EntityErrors.WrapIsInjective` | src/error/entity_error.rs:11 | Two wrapped errors are equal exactly when the wallet errors inside are equal. Unwrapping a wrapped error gives it back. |
| `Entities.Entity.constructor` | src/model/entity.rs:42-52 | `get_id` and `get_name` return the given id and name. The entity's wallet is its own fresh object with the given wallet's balance. |
| `Entities.Entity.GetWallet` | src/model/entity.rs:123-127 | Returns a fresh wallet, not the owned one, holding the owned wallet's balance. |
| `Entities.Entity.AddCoins` | src/model/entity.rs:154-162 | Succeeds exactly when the owned wallet's add succeeds, and the balance moves exactly as the wallet's would. On failure the error is `WalletOperationError` carrying the identical wallet error, and the balance is unchanged. |
| `Entities.Entity.RemoveCoins` | src/model/entity.rs:190-199 | Passes the amount and flag through unchanged. Succeeds exactly when the wallet's remove does. On failure it wraps the identical wallet error and leaves the balance unchanged. |
| `Entities.CopyLeavesEntityUnchanged` | src/model/entity.rs:114-127 | For any entity and amount, `before` is the entity's balance, and after adding to the copy from `get_wallet` the entity's balance is still `before`. The copy moves exactly as `AddCoinsStep` says for a wallet holding `before`. |
| `Entities.NewEntityExample` | src/model/entity.rs:28-39 | The `new` example reads back id `"id_0001"`, name `"john"` and balance 0. |
| `Entities.GetWalletExample` | src/model/entity.rs:104-120 | After adding 100 to the copy, the entity still reports 0 and the copy reports 100. |
| `TransactionStates.Eq` | src/model/transaction_state.rs:17-27 | `eq` holds exactly when both states are the same variant with equal timestamps. That makes it the same relation as structural equality. |
| `TransactionStates.Ne` | src/model/transaction_state.rs:29-31 | `ne` holds exactly when the states differ. |
| `TransactionStates.EqIsEquivalence` | src/model/transaction_state.rs:17-27 | `eq` is reflexive, symmetric and transitive. |
| `TransactionStates.DifferentVariantsUnequal` | tests/test_banana_coin/test_transaction_state.rs:15-22 | States of different variants are unequal even with the same timestamp. |
| `TransactionStates.DifferentTimestampsUnequal` | tests/test_banana_coin/test_transaction_state.rs:24-31 | States with different timestamps are unequal. |
| `TransactionStates.HistoryContains` | tests/test_banana_coin/test_transaction.rs:27-29 | `contains` on a history, using the hand-written `eq`, holds exactly when some entry is `eq` to the state, which is the same as membership. |
| `Transactions.New` | src/model/transaction.rs:49-67 | `new` has no precondition, so zero amounts, empty histories, equal ids and an absent current state are all accepted. Each of the seven accessors returns its own argument; the history comes back as the same sequence, so its length and order are kept. |
| `Transactions.HistoryContainsEveryEntry` | src/model/transaction.rs:154-158 | Every state in the history is found by `contains` in what `get_state_history` returns. |
| `Transactions.NewTransactionExample` | tests/test_banana_coin/test_transaction.rs:5-32 | The test's transaction reads back all its fields, and its history contains the three pushed states. |

The accessors `Wallet.GetBalance`, `Entity.GetId`, `Entity.GetName` and the
seven `Transaction.Get…` functions are plain field reads. What they return is
stated by the constructor rows above and by `Transactions.New`. A
`Transaction` is a datatype value, so no operation modifies it and repeated
calls return the same values. An `Entity`'s `id` and `name` are constants, so
neither `AddCoins` nor `RemoveCoins` can change them. An `amount` of type
`uint32` always lies between 0 and 2^32-1.

## Left out

- The `fmt::Display` implementations of both error types: they only format messages.
- The unused message constants at the top of `src/model/wallet.rs`.
- The serde `Serialize`/`Deserialize` derives and all JSON output: these are calls into a foreign library.
- `src/main.rs` (a demo driver that prints JSON) and `src/model/mod.rs` (module re-exports only).
- Rust lifetimes: `Entity`'s `id` and `name` are plain strings, not borrowed `&str`.
- The panics of the older `wallet.rs`: its zero and overflow arms are modelled as returned errors, and its negative-amount arm cannot arise with an unsigned amount.
- `Entities.Entity.constructor`: Rust moves the wallet into the entity. The model copies it into a fresh wallet instead, so afterwards the caller's wallet object is not the entity's.
- Field privacy: `Entity`'s `wallet` field is private in the source, so `get_wallet` is the only way to reach it. Dafny has no private fields here, so any client can read `Entity.wallet` and change that wallet directly. Exclusive ownership rests only on the fresh copy taken at construction, and `Entity.AddCoins` and `Entity.RemoveCoins` are not the only paths that can change an entity's balance.
- Transitions between transaction states and any transfer of coins between wallets: the library has neither.
