/** What each command handler decides, as a function of what it read: the events it commits, or a
    throw together with the events that the filter registered for the error publishes. */
module Decisions {
  import opened Wrappers
  import opened Events
  import opened Aggregates
  import opened Messages
  import Accounts
  import Inventories

  datatype Decision = Commit(events: seq<Event>) | Throw(reported: seq<Event>)

  /** A row of the inventory projection. */
  datatype Row = Row(name: string, quantity: int, price: int)

  /** `toProjection` of an inventory. The columns are not nullable, so nothing is saved for an
      aggregate without numbers. */
  function Project(s: Inventories.Inventory): Option<Row> {
    if s.quantity.Some? && s.price.Some? then Some(Row(s.name, s.quantity.value, s.price.value)) else None
  }

  /** `x < 0` in JavaScript: false for NaN and undefined. */
  predicate Negative(x: Option<int>) {
    x.Some? && x.value < 0
  }

  function CreateAccount(h: seq<Event>, streamId: Id, name: string, balance: int, corr: Id, uuid: nat): Decision {
    if Replay(Accounts.HANDLERS, h).Err? then Throw([])
    else Commit([Event(uuid, streamId, corr, AccountCreated(name, balance))])
  }

  function DepositFunds(h: seq<Event>, accountId: Id, funds: int, corr: Id, uuid: nat): Decision {
    if Replay(Accounts.HANDLERS, h).Err? then Throw([])
    else Commit([Event(uuid, accountId, corr, FundsDeposited(funds))])
  }

  /** The funds are negative; the check reads the balance after the withdrawal was applied. */
  function WithdrawFunds(h: seq<Event>, accountId: Id, funds: int, corr: Id, uuid: nat): Decision {
    match Replay(Accounts.HANDLERS, h)
    case Err(_) => Throw([])
    case Ok(s) =>
      if Negative(Accounts.Add(s.balance, funds))
      then Throw([Event(uuid, accountId, UNSET, FundsWithdrawalFailed(funds))])
      else Commit([Event(uuid, accountId, corr, FundsWithdrawn(funds))])
  }

  /** `nameTaken` is the outcome of the reservation protocol, which `Reservation` models. */
  function CreateInventory(
      h: seq<Event>, streamId: Id, name: string, quantity: int, price: int, nameTaken: bool, corr: Id, uuid: nat): Decision
  {
    if Replay(Inventories.HANDLERS, h).Err? then Throw([])
    else if nameTaken then Throw([Event(uuid, streamId, UNSET, InventoryCreatedFailed(name))])
    else Commit([Event(uuid, streamId, corr, InventoryCreated(name, quantity, price))])
  }

  /** Order and payment are committed together; a missing row makes `inventory.price` throw. */
  function CreateOrder(
      h: seq<Event>, row: Option<Row>, accountId: Id, inventoryId: Id, quantity: int, orderId: Id, corr: Id, uuid: nat): Decision
  {
    if row.None? then Throw([])
    else
      match Replay(Accounts.HANDLERS, h)
      case Err(_) => Throw([])
      case Ok(s) =>
        var cost := row.value.price * quantity;
        if Negative(Accounts.Add(s.balance, -cost))
        then Throw([Event(uuid, accountId, UNSET, FundsWithdrawalFailed(-cost))])
        else
          var order := Order(orderId, accountId, inventoryId, cost, quantity);
          Commit([Event(uuid, accountId, corr, OrderCreated(order)), Event(uuid + 1, accountId, corr, FundsWithdrawn(-cost))])
  }

  function RemoveInventory(h: seq<Event>, inventoryId: Id, quantity: int, corr: Id, uuid: nat): Decision {
    match Replay(Inventories.HANDLERS, h)
    case Err(_) => Throw([])
    case Ok(s) =>
      if s.quantity.Some? && s.quantity.value - quantity < 0 then Throw([])
      else Commit([Event(uuid, inventoryId, corr, InventoryRemoved(quantity))])
  }

  function RollbackAccount(h: seq<Event>, streamId: Id, correlationId: Id, corr: Id, uuid: nat): Decision {
    match Replay(Accounts.HANDLERS, h)
    case Err(_) => Throw([])
    case Ok(s) =>
      match Rollback(Accounts.HANDLERS, streamId, h, correlationId, uuid)
      case None => Throw([])
      case Some(es) =>
        if ApplyNewAll(Accounts.HANDLERS, s, es).Err? then Throw([]) else Commit(StampAll(es, corr))
  }

  // ---- What each handler commits, and when ----

  // Balances are the fold over the stream here, not the replayed field.

  lemma OpeningCommits(h: seq<Event>, streamId: Id, name: string, balance: int, corr: Id, uuid: nat)
    requires Replay(Accounts.HANDLERS, h).Ok?
    ensures CreateAccount(h, streamId, name, balance, corr, uuid)
         == Commit([Event(uuid, streamId, corr, AccountCreated(name, balance))])
  {
  }

  lemma DepositCommits(h: seq<Event>, accountId: Id, funds: int, corr: Id, uuid: nat)
    requires Replay(Accounts.HANDLERS, h).Ok?
    ensures DepositFunds(h, accountId, funds, corr, uuid) == Commit([Event(uuid, accountId, corr, FundsDeposited(funds))])
  {
  }

  lemma WithdrawalCommits(h: seq<Event>, accountId: Id, funds: int, corr: Id, uuid: nat)
    requires Replay(Accounts.HANDLERS, h).Ok?
    ensures WithdrawFunds(h, accountId, funds, corr, uuid) ==
              if Accounts.Balance(h).None? || Accounts.Balance(h).value + funds >= 0
              then Commit([Event(uuid, accountId, corr, FundsWithdrawn(funds))])
              else Throw([Event(uuid, accountId, UNSET, FundsWithdrawalFailed(funds))])
  {
    hide ReplayFrom, Accounts.BalanceFrom;
    Accounts.ReplayIsFolds(Accounts.HANDLERS.initial, h);
  }

  lemma OrderCommits(
      h: seq<Event>, row: Option<Row>, accountId: Id, inventoryId: Id, quantity: int, orderId: Id, corr: Id, uuid: nat)
    requires Replay(Accounts.HANDLERS, h).Ok?
    ensures CreateOrder(h, row, accountId, inventoryId, quantity, orderId, corr, uuid) ==
              if row.None? then Throw([])
              else
                var cost := row.value.price * quantity;
                if Accounts.Balance(h).None? || Accounts.Balance(h).value >= cost then
                  Commit([Event(uuid, accountId, corr, OrderCreated(Order(orderId, accountId, inventoryId, cost, quantity))),
                          Event(uuid + 1, accountId, corr, FundsWithdrawn(-cost))])
                else Throw([Event(uuid, accountId, UNSET, FundsWithdrawalFailed(-cost))])
  {
    hide ReplayFrom, Accounts.BalanceFrom;
    Accounts.ReplayIsFolds(Accounts.HANDLERS.initial, h);
  }

  lemma InventoryCommits(h: seq<Event>, streamId: Id, name: string, quantity: int, price: int, nameTaken: bool, corr: Id, uuid: nat)
    requires Replay(Inventories.HANDLERS, h).Ok?
    ensures CreateInventory(h, streamId, name, quantity, price, nameTaken, corr, uuid) ==
              if nameTaken then Throw([Event(uuid, streamId, UNSET, InventoryCreatedFailed(name))])
              else Commit([Event(uuid, streamId, corr, InventoryCreated(name, quantity, price))])
  {
  }

  /** A stream that starts with the creation of an inventory and goes on with removals. */
  predicate StockStream(h: seq<Event>) {
    h != [] && h[0].body.InventoryCreated? && forall i :: 0 < i < |h| ==> h[i].body.InventoryRemoved?
  }

  lemma RemovalCommits(h: seq<Event>, inventoryId: Id, quantity: int, corr: Id, uuid: nat)
    requires StockStream(h)
    ensures RemoveInventory(h, inventoryId, quantity, corr, uuid) ==
              if h[0].body.quantity - Inventories.Removed(h) >= quantity
              then Commit([Event(uuid, inventoryId, corr, InventoryRemoved(quantity))])
              else Throw([])
  {
    hide ReplayFrom;
    Inventories.QuantityOfStream(h);
  }

  /** The row of such a stream: name and price of its creation, and what is left. */
  lemma RowOfStock(h: seq<Event>)
    requires StockStream(h)
    ensures Replay(Inventories.HANDLERS, h).Ok?
    ensures Project(Replay(Inventories.HANDLERS, h).value)
         == Some(Row(h[0].body.name, h[0].body.quantity - Inventories.Removed(h), h[0].body.price))
  {
    hide ReplayFrom;
    Inventories.QuantityOfStream(h);
  }

  // ---- Redelivered rollback commands ----

  /** A stream after a number of RollbackAccount runs for one correlation, each with the correlation
      of its own command and its own uuids. */
  function AfterRollbacks(h: seq<Event>, stream: Id, c: Id, runs: seq<(Id, nat)>): seq<Event> {
    if runs == [] then h
    else
      var before := AfterRollbacks(h, stream, c, runs[..|runs| - 1]);
      match RollbackAccount(before, stream, c, runs[|runs| - 1].0, runs[|runs| - 1].1)
      case Commit(es) => before + es
      case Throw(_) => before
  }

  /** Compensating events carry their correlation already; committing stamps nothing onto them. */
  lemma RollbackKeepsStamps(h: seq<Event>, stream: Id, c: Id, corr: Id, uuid: nat)
    requires c != UNSET && Rollback(Accounts.HANDLERS, stream, h, c, uuid).Some?
    ensures var es := Rollback(Accounts.HANDLERS, stream, h, c, uuid).value; StampAll(es, corr) == es
  {
    CompensateShape(Accounts.HANDLERS, stream, Reversed(OfCorrelation(h, c)), c, uuid);
  }

  lemma RollbackRun(h: seq<Event>, stream: Id, c: Id, corr: Id, uuid: nat)
    requires c != UNSET
    ensures match RollbackAccount(h, stream, c, corr, uuid)
            case Commit(es) => h + es == RollbackDelivery(Accounts.HANDLERS, stream, h, c, uuid)
            case Throw(_) => h == RollbackDelivery(Accounts.HANDLERS, stream, h, c, uuid)
  {
    if Rollback(Accounts.HANDLERS, stream, h, c, uuid).Some? {
      RollbackKeepsStamps(h, stream, c, corr, uuid);
    }
  }

  /** However often a rollback is delivered, under whatever correlations, the stream is what the
      first run made it. */
  lemma {:induction false} RollbacksAreIdempotent(h: seq<Event>, stream: Id, c: Id, runs: seq<(Id, nat)>)
    requires c != UNSET && runs != []
    ensures AfterRollbacks(h, stream, c, runs) == RollbackDelivery(Accounts.HANDLERS, stream, h, c, runs[0].1)
  {
    var front, last := runs[..|runs| - 1], runs[|runs| - 1];
    if front == [] {
      assert AfterRollbacks(h, stream, c, front) == h;
      RollbackRun(h, stream, c, last.0, last.1);
    } else {
      RollbacksAreIdempotent(h, stream, c, front);
      var before := AfterRollbacks(h, stream, c, front);
      RollbackRun(before, stream, c, last.0, last.1);
      Accounts.AccountUndoIsFinal();
      RedeliveryIsNoOp(Accounts.HANDLERS, stream, h, c, runs[0].1, last.1);
    }
  }

  /** After a rollback that did something every further one throws. */
  lemma LaterRollbackThrows(h: seq<Event>, stream: Id, c: Id, corr: Id, uuid: nat, corr': Id, uuid': nat)
    requires c != UNSET
    requires var d := RollbackAccount(h, stream, c, corr, uuid); d.Commit? && d.events != []
    ensures RollbackAccount(h + RollbackAccount(h, stream, c, corr, uuid).events, stream, c, corr', uuid') == Throw([])
  {
    hide Replay, ApplyNewAll, UndoIsFinal, Rollback;
    RollbackKeepsStamps(h, stream, c, corr, uuid);
    Accounts.AccountUndoIsFinal();
    SecondRollbackThrows(Accounts.HANDLERS, stream, h, c, uuid, uuid');
  }
}
