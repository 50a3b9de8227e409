/** The command handlers of the demo as they run, each against the decision that specifies it. */
module CommandHandlers {
  import opened Wrappers
  import opened Events
  import opened Aggregates
  import opened Messages
  import opened Decisions
  import opened EventStore
  import Accounts
  import Inventories
  import Delivery

  /** What a handler throws. The exceptions of the demo carry the event that was not committed. */
  datatype Exception =
    | Fault
    | InvalidWithdrawalAmount(stream: Id, funds: int)
    | InvalidRemoveInventory(stream: Id)
    | DuplicateInventoryName(stream: Id, name: string)

  /** The event that the filter of an exception publishes, if it has one. */
  function Report(e: Exception, uuid: nat): seq<Event> {
    match e
    case InvalidWithdrawalAmount(stream, funds) => [Event(uuid, stream, UNSET, FundsWithdrawalFailed(funds))]
    case DuplicateInventoryName(stream, name) => [Event(uuid, stream, UNSET, InventoryCreatedFailed(name))]
    case _ => []
  }

  type Outcome = Result<(), Exception>

  type EventPublisher = Delivery.Publisher<Event>

  /** A decision carried out on the store: a commit is filed and published, a throw changes nothing
      and leaves the rest to its filter. */
  ghost predicate CarriedOut(
      d: Decision, uuid: nat, streams: Streams, bus: EventPublisher, streams': Streams, bus': EventPublisher, r: Outcome)
  {
    match d
    case Commit(es) => r.Ok? && streams' == AppendAll(streams, es) && bus' == Delivery.PublishAll(bus, es)
    case Throw(reported) => r.Err? && streams' == streams && bus' == bus && Report(r.error, uuid) == reported
  }

  class WithdrawFundsHandler {
    const factory: AggregateFactory

    constructor (factory: AggregateFactory)
      ensures this.factory == factory
    {
      this.factory := factory;
    }

    /** The check reads the balance that the applied event left behind. */
    method Execute(accountId: Id, funds: int, corr: Id, uuid: nat) returns (r: Outcome)
      requires factory.store.Valid()
      modifies factory.store, factory.store.publisher, factory.store.publisher.queue
      ensures factory.store.Valid() && factory.store.publisher.queue == old(factory.store.publisher.queue)
      ensures var d := Decisions.WithdrawFunds(Load(old(factory.store.streams), accountId), accountId, funds, corr, uuid);
              && CarriedOut(d, uuid, old(factory.store.streams), old(factory.store.publisher.View()),
                            factory.store.streams, factory.store.publisher.View(), r)
              && var h := Load(old(factory.store.streams), accountId);
                 Replay(Accounts.HANDLERS, h).Ok? ==>
                   d == if Accounts.Balance(h).None? || Accounts.Balance(h).value + funds >= 0
                        then Commit([Event(uuid, accountId, corr, FundsWithdrawn(funds))])
                        else Throw([Event(uuid, accountId, UNSET, FundsWithdrawalFailed(funds))])
    {
      hide AppendAll, Delivery.PublishAll, ReplayFrom, ApplyNewAll, Compensate, Load, MemoryStore.Valid,
        Delivery.MemoryPublisher.View, Uncommitted, Restamped, AggregateRoot.Valid;
      ghost var h := Load(factory.store.streams, accountId);
      if Replay(Accounts.HANDLERS, h).Ok? {
        WithdrawalCommits(h, accountId, funds, corr, uuid);
      }
      var merged := factory.MergeContext(accountId, Accounts.HANDLERS);
      if merged.Err? {
        return Err(Fault);
      }
      var aggregate := merged.value;
      var event := Event(uuid, accountId, UNSET, FundsWithdrawn(funds));
      var _ := aggregate.Apply(event, false);
      if aggregate.state.balance.Some? && aggregate.state.balance.value < 0 {
        return Err(InvalidWithdrawalAmount(accountId, funds));
      }
      assert aggregate.UncommittedHistory() == [event];
      var committed := factory.Commit(aggregate, corr);
      assert StampAll([event], corr) == [event.(corr := corr)];
      return Ok(());
    }
  }

  class DepositFundsHandler {
    const factory: AggregateFactory

    constructor (factory: AggregateFactory)
      ensures this.factory == factory
    {
      this.factory := factory;
    }

    method Execute(accountId: Id, funds: int, corr: Id, uuid: nat) returns (r: Outcome)
      requires factory.store.Valid()
      modifies factory.store, factory.store.publisher, factory.store.publisher.queue
      ensures factory.store.Valid() && factory.store.publisher.queue == old(factory.store.publisher.queue)
      ensures var d := Decisions.DepositFunds(Load(old(factory.store.streams), accountId), accountId, funds, corr, uuid);
              && CarriedOut(d, uuid, old(factory.store.streams), old(factory.store.publisher.View()),
                            factory.store.streams, factory.store.publisher.View(), r)
              && (Replay(Accounts.HANDLERS, Load(old(factory.store.streams), accountId)).Ok? ==>
                    d == Commit([Event(uuid, accountId, corr, FundsDeposited(funds))]))
    {
      hide AppendAll, Delivery.PublishAll, ReplayFrom, ApplyNewAll, Compensate, Load, MemoryStore.Valid,
        Delivery.MemoryPublisher.View, Uncommitted, Restamped, AggregateRoot.Valid;
      ghost var h := Load(factory.store.streams, accountId);
      if Replay(Accounts.HANDLERS, h).Ok? {
        DepositCommits(h, accountId, funds, corr, uuid);
      }
      var merged := factory.MergeContext(accountId, Accounts.HANDLERS);
      if merged.Err? {
        return Err(Fault);
      }
      var aggregate := merged.value;
      var event := Event(uuid, accountId, UNSET, FundsDeposited(funds));
      var _ := aggregate.Apply(event, false);
      assert aggregate.UncommittedHistory() == [event];
      var committed := factory.Commit(aggregate, corr);
      assert StampAll([event], corr) == [event.(corr := corr)];
      return Ok(());
    }
  }

  class CreateAccountHandler {
    const factory: AggregateFactory

    constructor (factory: AggregateFactory)
      ensures this.factory == factory
    {
      this.factory := factory;
    }

    method Execute(streamId: Id, name: string, balance: int, corr: Id, uuid: nat) returns (r: Outcome)
      requires factory.store.Valid()
      modifies factory.store, factory.store.publisher, factory.store.publisher.queue
      ensures factory.store.Valid() && factory.store.publisher.queue == old(factory.store.publisher.queue)
      ensures var d := Decisions.CreateAccount(Load(old(factory.store.streams), streamId), streamId, name, balance, corr, uuid);
              && CarriedOut(d, uuid, old(factory.store.streams), old(factory.store.publisher.View()),
                            factory.store.streams, factory.store.publisher.View(), r)
              && (Replay(Accounts.HANDLERS, Load(old(factory.store.streams), streamId)).Ok? ==>
                    d == Commit([Event(uuid, streamId, corr, AccountCreated(name, balance))]))
    {
      hide AppendAll, Delivery.PublishAll, ReplayFrom, ApplyNewAll, Compensate, Load, MemoryStore.Valid,
        Delivery.MemoryPublisher.View, Uncommitted, Restamped, AggregateRoot.Valid;
      ghost var h := Load(factory.store.streams, streamId);
      if Replay(Accounts.HANDLERS, h).Ok? {
        OpeningCommits(h, streamId, name, balance, corr, uuid);
      }
      var merged := factory.MergeContext(streamId, Accounts.HANDLERS);
      if merged.Err? {
        return Err(Fault);
      }
      var aggregate := merged.value;
      var event := Event(uuid, streamId, UNSET, AccountCreated(name, balance));
      var _ := aggregate.Apply(event, false);
      assert aggregate.UncommittedHistory() == [event];
      var committed := factory.Commit(aggregate, corr);
      assert StampAll([event], corr) == [event.(corr := corr)];
      return Ok(());
    }
  }

  class CreateOrderHandler {
    const factory: AggregateFactory

    constructor (factory: AggregateFactory)
      ensures this.factory == factory
    {
      this.factory := factory;
    }

    /** `row` is the answer of FindInventoryByIdQuery. */
    method Execute(
        row: Option<Row>, accountId: Id, inventoryId: Id, quantity: int, orderId: Id, corr: Id, uuid: nat) returns (r: Outcome)
      requires factory.store.Valid()
      modifies factory.store, factory.store.publisher, factory.store.publisher.queue
      ensures factory.store.Valid() && factory.store.publisher.queue == old(factory.store.publisher.queue)
      ensures var d := Decisions.CreateOrder(
                         Load(old(factory.store.streams), accountId), row, accountId, inventoryId, quantity, orderId, corr, uuid);
              && CarriedOut(d, uuid, old(factory.store.streams), old(factory.store.publisher.View()),
                            factory.store.streams, factory.store.publisher.View(), r)
              && var h := Load(old(factory.store.streams), accountId);
                 Replay(Accounts.HANDLERS, h).Ok? && row.Some? ==>
                   var cost := row.value.price * quantity;
                   d == if Accounts.Balance(h).None? || Accounts.Balance(h).value >= cost then
                          Commit([Event(uuid, accountId, corr, OrderCreated(Order(orderId, accountId, inventoryId, cost, quantity))),
                                  Event(uuid + 1, accountId, corr, FundsWithdrawn(-cost))])
                        else Throw([Event(uuid, accountId, UNSET, FundsWithdrawalFailed(-cost))])
    {
      hide AppendAll, Delivery.PublishAll, ReplayFrom, ApplyNewAll, Compensate, Load, MemoryStore.Valid,
        Delivery.MemoryPublisher.View, Uncommitted, Restamped, AggregateRoot.Valid;
      if row.None? {
        return Err(Fault);
      }
      var cost := row.value.price * quantity;
      ghost var h := Load(factory.store.streams, accountId);
      if Replay(Accounts.HANDLERS, h).Ok? {
        OrderCommits(h, row, accountId, inventoryId, quantity, orderId, corr, uuid);
      }
      var merged := factory.MergeContext(accountId, Accounts.HANDLERS);
      if merged.Err? {
        return Err(Fault);
      }
      var orderCreated := Event(uuid, accountId, UNSET, OrderCreated(Order(orderId, accountId, inventoryId, cost, quantity)));
      var withdrawFunds := Event(uuid + 1, accountId, UNSET, FundsWithdrawn(-cost));
      r := Place(merged.value, orderCreated, withdrawFunds, corr, uuid);
      assert StampAll([orderCreated, withdrawFunds], corr) == [orderCreated.(corr := corr), withdrawFunds.(corr := corr)];
    }

    /** The order is applied before the funds are checked, the payment after; a throw leaves both
        uncommitted. */
    method Place(account: AggregateRoot<Accounts.Account>, orderCreated: Event, withdrawFunds: Event, corr: Id, ghost uuid: nat)
      returns (r: Outcome)
      requires factory.store.Valid() && account.Valid()
      requires account.table == Accounts.HANDLERS && account.canCommit && account.UncommittedHistory() == []
      requires orderCreated.stream == withdrawFunds.stream == account.streamId
      requires orderCreated.body.OrderCreated? && withdrawFunds.body.FundsWithdrawn?
      modifies account, factory.store, factory.store.publisher, factory.store.publisher.queue
      ensures factory.store.Valid() && factory.store.publisher.queue == old(factory.store.publisher.queue)
      ensures CarriedOut(
                if Negative(Accounts.Add(old(account.state).balance, withdrawFunds.body.funds))
                then Throw([Event(uuid, withdrawFunds.stream, UNSET, FundsWithdrawalFailed(withdrawFunds.body.funds))])
                else Commit(StampAll([orderCreated, withdrawFunds], corr)),
                uuid, old(factory.store.streams), old(factory.store.publisher.View()),
                factory.store.streams, factory.store.publisher.View(), r)
    {
      hide AppendAll, Delivery.PublishAll, ReplayFrom, ApplyNewAll, Compensate, Load, MemoryStore.Valid,
        Delivery.MemoryPublisher.View, Uncommitted, Restamped, AggregateRoot.Valid;
      var _ := account.Apply(orderCreated, false);
      assert account.UncommittedHistory() == [orderCreated];
      if account.state.balance.Some? && account.state.balance.value + withdrawFunds.body.funds < 0 {
        return Err(InvalidWithdrawalAmount(withdrawFunds.stream, withdrawFunds.body.funds));
      }
      var _ := account.Apply(withdrawFunds, false);
      assert account.UncommittedHistory() == [orderCreated, withdrawFunds];
      var committed := factory.Commit(account, corr);
      return Ok(());
    }
  }

  class RemoveInventoryHandler {
    const factory: AggregateFactory

    constructor (factory: AggregateFactory)
      ensures this.factory == factory
    {
      this.factory := factory;
    }

    method Execute(inventoryId: Id, quantity: int, corr: Id, uuid: nat) returns (r: Outcome)
      requires factory.store.Valid()
      modifies factory.store, factory.store.publisher, factory.store.publisher.queue
      ensures factory.store.Valid() && factory.store.publisher.queue == old(factory.store.publisher.queue)
      ensures var d := Decisions.RemoveInventory(Load(old(factory.store.streams), inventoryId), inventoryId, quantity, corr, uuid);
              && CarriedOut(d, uuid, old(factory.store.streams), old(factory.store.publisher.View()),
                            factory.store.streams, factory.store.publisher.View(), r)
              && var h := Load(old(factory.store.streams), inventoryId);
                 StockStream(h) ==>
                   d == if h[0].body.quantity - Inventories.Removed(h) >= quantity
                        then Commit([Event(uuid, inventoryId, corr, InventoryRemoved(quantity))])
                        else Throw([])
    {
      hide AppendAll, Delivery.PublishAll, ReplayFrom, ApplyNewAll, Compensate, Load, MemoryStore.Valid,
        Delivery.MemoryPublisher.View, Uncommitted, Restamped, AggregateRoot.Valid;
      ghost var h := Load(factory.store.streams, inventoryId);
      if StockStream(h) {
        RemovalCommits(h, inventoryId, quantity, corr, uuid);
      }
      var merged := factory.MergeContext(inventoryId, Inventories.HANDLERS);
      if merged.Err? {
        return Err(Fault);
      }
      var aggregate := merged.value;
      var event := Event(uuid, inventoryId, UNSET, InventoryRemoved(quantity));
      var _ := aggregate.Apply(event, false);
      if aggregate.state.quantity.Some? && aggregate.state.quantity.value < 0 {
        return Err(InvalidRemoveInventory(inventoryId));
      }
      assert aggregate.UncommittedHistory() == [event];
      var committed := factory.Commit(aggregate, corr);
      assert StampAll([event], corr) == [event.(corr := corr)];
      return Ok(());
    }
  }

  class CreateInventoryHandler {
    const factory: AggregateFactory

    constructor (factory: AggregateFactory)
      ensures this.factory == factory
    {
      this.factory := factory;
    }

    /** `nameTaken` is the answer of the reservation protocol. */
    method Execute(streamId: Id, name: string, quantity: int, price: int, nameTaken: bool, corr: Id, uuid: nat) returns (r: Outcome)
      requires factory.store.Valid()
      modifies factory.store, factory.store.publisher, factory.store.publisher.queue
      ensures factory.store.Valid() && factory.store.publisher.queue == old(factory.store.publisher.queue)
      ensures var d := Decisions.CreateInventory(
                         Load(old(factory.store.streams), streamId), streamId, name, quantity, price, nameTaken, corr, uuid);
              && CarriedOut(d, uuid, old(factory.store.streams), old(factory.store.publisher.View()),
                            factory.store.streams, factory.store.publisher.View(), r)
              && (Replay(Inventories.HANDLERS, Load(old(factory.store.streams), streamId)).Ok? ==>
                    d == if nameTaken then Throw([Event(uuid, streamId, UNSET, InventoryCreatedFailed(name))])
                         else Commit([Event(uuid, streamId, corr, InventoryCreated(name, quantity, price))]))
    {
      hide AppendAll, Delivery.PublishAll, ReplayFrom, Replay, ApplyNewAll, Compensate, Load, MemoryStore.Valid,
        Delivery.MemoryPublisher.View, Uncommitted, Restamped, AggregateRoot.Valid;
      ghost var h := Load(factory.store.streams, streamId);
      if Replay(Inventories.HANDLERS, h).Ok? {
        InventoryCommits(h, streamId, name, quantity, price, nameTaken, corr, uuid);
      }
      var merged := factory.MergeContext(streamId, Inventories.HANDLERS);
      if merged.Err? {
        return Err(Fault);
      }
      var aggregate := merged.value;
      if nameTaken {
        return Err(DuplicateInventoryName(streamId, name));
      }
      var event := Event(uuid, streamId, UNSET, InventoryCreated(name, quantity, price));
      var _ := aggregate.Apply(event, false);
      assert aggregate.UncommittedHistory() == [event];
      var committed := factory.Commit(aggregate, corr);
      assert StampAll([event], corr) == [event.(corr := corr)];
      return Ok(());
    }
  }

  class RollbackAccountHandler {
    const factory: AggregateFactory

    constructor (factory: AggregateFactory)
      ensures this.factory == factory
    {
      this.factory := factory;
    }

    /** Nothing is checked; a missing rollback method throws before anything is committed. */
    method Execute(streamId: Id, correlationId: Id, corr: Id, uuid: nat) returns (r: Outcome)
      requires factory.store.Valid()
      modifies factory.store, factory.store.publisher, factory.store.publisher.queue
      ensures factory.store.Valid() && factory.store.publisher.queue == old(factory.store.publisher.queue)
      ensures var d := Decisions.RollbackAccount(Load(old(factory.store.streams), streamId), streamId, correlationId, corr, uuid);
              CarriedOut(d, uuid, old(factory.store.streams), old(factory.store.publisher.View()),
                         factory.store.streams, factory.store.publisher.View(), r)
    {
      hide AppendAll, Delivery.PublishAll, ReplayFrom, ApplyNewAll, Compensate, Load, MemoryStore.Valid,
        Delivery.MemoryPublisher.View, Uncommitted, Restamped, AggregateRoot.Valid;
      var merged := factory.MergeContext(streamId, Accounts.HANDLERS);
      if merged.Err? {
        return Err(Fault);
      }
      var aggregate := merged.value;
      var rolledBack := aggregate.RollbackCorrelation(correlationId, uuid);
      if rolledBack.Err? {
        return Err(Fault);
      }
      ghost var es := Rollback(Accounts.HANDLERS, streamId, Load(old(factory.store.streams), streamId), correlationId, uuid).value;
      assert aggregate.UncommittedHistory() == [] + es == es;
      var committed := factory.Commit(aggregate, corr);
      return Ok(());
    }
  }

  /** `InventoryRemovedHandler`, and `InventoryCreatedHandler` up to the release that `Reservation`
      models: replay the stream, overwrite the row. */
  class InventoryProjectionHandler {
    const factory: AggregateFactory
    var rows: map<Id, Row>

    constructor (factory: AggregateFactory)
      ensures this.factory == factory && rows == map[]
    {
      this.factory, rows := factory, map[];
    }

    /** `None` is a rejected save: a column that is not nullable got no value. */
    method Execute(streamId: Id) returns (saved: Option<Row>)
      requires factory.store.Valid()
      modifies this`rows
      ensures saved == match Replay(Inventories.HANDLERS, Load(factory.store.streams, streamId))
                       case Ok(inventory) => Project(inventory)
                       case Err(_) => None
      ensures var h := Load(factory.store.streams, streamId);
              StockStream(h) ==>
                saved == Some(Row(h[0].body.name, h[0].body.quantity - Inventories.Removed(h), h[0].body.price))
      ensures rows == if saved.Some? then old(rows)[streamId := saved.value] else old(rows)
    {
      hide AppendAll, Delivery.PublishAll, ReplayFrom, ApplyNewAll, Compensate, Load, MemoryStore.Valid,
        Delivery.MemoryPublisher.View, Uncommitted, Restamped, AggregateRoot.Valid;
      ghost var h := Load(factory.store.streams, streamId);
      if StockStream(h) {
        RowOfStock(h);
      }
      var merged := factory.MergeContext(streamId, Inventories.HANDLERS);
      if merged.Err? {
        return None;
      }
      saved := Project(merged.value.state);
      if saved.Some? {
        rows := rows[streamId := saved.value];
      }
    }
  }
}
