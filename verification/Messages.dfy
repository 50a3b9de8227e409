/** Commands of the demo and the envelope they travel in. */
module Messages {
  import opened Events

  datatype Command =
    | CreateAccount(name: string, balance: int)
    | DepositFunds(accountId: Id, funds: int)
    | WithdrawFunds(accountId: Id, funds: int)
    | CreateInventory(name: string, quantity: int, price: int)
    | CreateOrder(accountId: Id, inventoryId: Id, quantity: int)
    | RemoveInventory(inventoryId: Id, orderId: Id, quantity: int)
    | RollbackAccount(streamId: Id, correlationId: Id)

  /** A command with its `$correlationId`. */
  datatype Message = Message(command: Command, corr: Id)
}
