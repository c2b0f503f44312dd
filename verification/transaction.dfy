/**
 * A transaction: an immutable record of a coin movement between two entities,
 * identified by their ids, with its current state and its state history.
 * Nothing here moves coins or checks the states.
 */
module Transactions {
  import opened Ints
  import opened TransactionStates

  datatype Transaction = Transaction(
    id: string,
    fromEntityId: string,
    toEntityId: string,
    amount: uint32,
    description: string,
    currentState: TransactionState,
    stateHistory: seq<TransactionState>)
  {
    function GetId(): string { id }
    function GetFromEntityId(): string { fromEntityId }
    function GetToEntityId(): string { toEntityId }
    function GetAmount(): uint32 { amount }
    function GetDescription(): string { description }
    function GetCurrentState(): TransactionState { currentState }
    function GetStateHistory(): seq<TransactionState> { stateHistory }
  }

  /**
   * `Transaction::new`: accepts any arguments without validation (a zero
   * amount, an empty history, equal entity ids, a current state absent from
   * the history), and every accessor gives back its own argument.
   */
  function New(id: string, fromEntityId: string, toEntityId: string, amount: uint32, description: string,
               currentState: TransactionState, stateHistory: seq<TransactionState>): (t: Transaction)
    ensures t.GetId() == id
    ensures t.GetFromEntityId() == fromEntityId
    ensures t.GetToEntityId() == toEntityId
    ensures t.GetAmount() == amount
    ensures t.GetDescription() == description
    ensures t.GetCurrentState() == currentState
    ensures t.GetStateHistory() == stateHistory
  {
    Transaction(id, fromEntityId, toEntityId, amount, description, currentState, stateHistory)
  }

  /** Every state put into the history is found in what `get_state_history` returns. */
  lemma HistoryContainsEveryEntry(t: Transaction, i: nat)
    requires i < |t.stateHistory|
    ensures HistoryContains(t.GetStateHistory(), t.stateHistory[i])
  {
  }

  /** The test transaction: three pushed states, current state `Completed(7)`. */
  lemma NewTransactionExample()
    ensures var history := [Created(1), OnProcess(4), Completed(7)];
            var description := "Moving 100 coins from entity identified by 'entity_001' to entity identified by 'entity_002'.";
            var t := New("id_0001", "entity_001", "entity_002", 100, description, Completed(7), history);
            && t.GetId() == "id_0001" && t.GetFromEntityId() == "entity_001" && t.GetToEntityId() == "entity_002"
            && t.GetAmount() == 100 && t.GetDescription() == description && Eq(t.GetCurrentState(), Completed(7))
            && HistoryContains(t.GetStateHistory(), Created(1))
            && HistoryContains(t.GetStateHistory(), OnProcess(4))
            && HistoryContains(t.GetStateHistory(), Completed(7))
  {
  }
}
