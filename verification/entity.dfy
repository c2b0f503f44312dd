/**
 * An entity: an identifier, a display name and a wallet it owns exclusively.
 * Its coin operations forward to the wallet and wrap the wallet's errors.
 */
module Entities {
  import opened Wrappers
  import opened Ints
  import opened WalletErrors
  import opened EntityErrors
  import opened Wallets

  class Entity {
    const id: string
    const name: string
    /** The owned wallet; the reference never changes, its balance does. */
    const wallet: Wallet

    /**
     * `Entity::new`: stores the id and the name, and takes the wallet over.
     * The source moves the wallet in; here the entity takes a fresh copy of
     * it, so no caller's reference aliases its wallet at construction. The
     * field itself is not private: a client that reads `wallet` directly can
     * still change it without going through `AddCoins` or `RemoveCoins`.
     */
    constructor (id: string, name: string, wallet: Wallet)
      ensures GetId() == id && GetName() == name
      ensures fresh(this.wallet) && this.wallet.GetBalance() == wallet.GetBalance()
    {
      this.id := id;
      this.name := name;
      this.wallet := new Wallet(wallet.nCoins);
    }

    /** `get_id`. */
    function GetId(): string {
      id
    }

    /** `get_name`. */
    function GetName(): string {
      name
    }

    /** `get_wallet`: a new wallet with the same balance, independent of the owned one. */
    method GetWallet() returns (w: Wallet)
      ensures fresh(w)
      ensures w.GetBalance() == wallet.GetBalance()
    {
      w := wallet.Clone();
    }

    /**
     * `add_coins`: adds to the owned wallet; succeeds exactly when the wallet
     * does, and reports the wallet's error wrapped and unchanged.
     */
    method AddCoins(amount: uint32) returns (r: Result<(), EntityError>)
      modifies wallet
      ensures r.Ok? <==> AddCoinsStep(old(wallet.nCoins), amount).Ok?
      ensures r.Ok? ==> wallet.nCoins == AddCoinsStep(old(wallet.nCoins), amount).value
      ensures r.Err? ==> r.error == WalletOperationError(AddCoinsStep(old(wallet.nCoins), amount).error)
      ensures r.Err? ==> wallet.nCoins == old(wallet.nCoins)
    {
      var result := wallet.AddCoins(amount);
      match result
      case Ok(_) => r := Ok(());
      case Err(error) => r := Err(WalletOperationError(error));
    }

    /**
     * `remove_coins`: passes the amount and the flag to the owned wallet
     * unchanged, and wraps its error the same way.
     */
    method RemoveCoins(amount: uint32, allowNegativeBalance: bool) returns (r: Result<(), EntityError>)
      modifies wallet
      ensures r.Ok? <==> RemoveCoinsStep(old(wallet.nCoins), amount, allowNegativeBalance).Ok?
      ensures r.Ok? ==> wallet.nCoins == RemoveCoinsStep(old(wallet.nCoins), amount, allowNegativeBalance).value
      ensures r.Err? ==> r.error == WalletOperationError(RemoveCoinsStep(old(wallet.nCoins), amount, allowNegativeBalance).error)
      ensures r.Err? ==> wallet.nCoins == old(wallet.nCoins)
    {
      var result := wallet.RemoveCoins(amount, allowNegativeBalance);
      match result
      case Ok(_) => r := Ok(());
      case Err(error) => r := Err(WalletOperationError(error));
    }
  }

  /**
   * Changing the copy `get_wallet` returns never changes the entity: after
   * adding to the copy, the entity's balance is what it was, and the copy
   * moved as a wallet with the entity's balance would.
   */
  method CopyLeavesEntityUnchanged(e: Entity, amount: uint32)
    returns (before: int64, after: int64, copyResult: Result<(), WalletError>, copyBalance: int64)
    ensures before == e.wallet.GetBalance() && after == before
    ensures copyResult.Ok? <==> AddCoinsStep(before, amount).Ok?
    ensures copyResult.Ok? ==> copyBalance == before + amount
    ensures copyResult.Err? ==> copyBalance == before
  {
    before := e.wallet.GetBalance();
    var copy := e.GetWallet();
    copyResult := copy.AddCoins(amount);
    copyBalance := copy.GetBalance();
    after := e.wallet.GetBalance();
  }

  /** The `Entity::new` example: the accessors give back what was stored. */
  method NewEntityExample() returns (id: string, name: string, balance: int64)
    ensures id == "id_0001" && name == "john" && balance == 0
  {
    var initial := new Wallet(0);
    var e := new Entity("id_0001", "john", initial);
    id := e.GetId();
    name := e.GetName();
    var w := e.GetWallet();
    balance := w.GetBalance();
  }

  /** The `get_wallet` example: adding 100 to the copy leaves the entity at 0. */
  method GetWalletExample() returns (entityBalance: int64, copyBalance: int64)
    ensures entityBalance == 0 && copyBalance == 100
  {
    var initial := new Wallet(0);
    var e := new Entity("id_0001", "john", initial);
    var copy := e.GetWallet();
    var _ := copy.AddCoins(100);
    var again := e.GetWallet();
    entityBalance := again.GetBalance();
    copyBalance := copy.GetBalance();
  }
}
