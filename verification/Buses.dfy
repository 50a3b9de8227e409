/** The two buses as they run: one command, or one event, from its handler to what is published.
    Each is proved against the step of `OrderSystem` that it carries out. */
module Buses {
  import opened Wrappers
  import opened Events
  import opened Aggregates
  import opened Messages
  import opened Decisions
  import opened EventStore
  import opened CommandHandlers
  import OrderSystem
  import Delivery
  import Sagas
  import Caches
  import Accounts
  import Inventories

  /** A handler run that reads the stream as it is now. */
  function RunNow(streams: Streams, m: Message, streamId: Id, row: Option<Row>, orderId: Id): OrderSystem.Run {
    OrderSystem.Run(m, streamId, orderId, row, Load(streams, OrderSystem.Target(m.command, streamId)))
  }

  type EventQueue = Delivery.Publisher<Event>
  type CommandQueue = Delivery.Publisher<Message>

  /** A run of a command carried out by the bus: what its decision makes of the store, of the event
      publisher and of the command publisher. */
  ghost predicate Concludes(
      sets: Caches.Sets, m: Message, d: Decision, streams: Streams, events: EventQueue, commands: CommandQueue,
      streams': Streams, events': EventQueue, commands': CommandQueue)
  {
    var after := OrderSystem.Conclude(OrderSystem.INIT.(sets := sets), m, d);
    && streams' == AppendAll(streams, after.log)
    && events' == Delivery.PublishAll(events, after.events)
    && commands' == Delivery.PublishAll(commands, after.commands)
  }

  class CommandBus {
    const publisher: Delivery.MemoryPublisher<Message>
    const sagaManager: Sagas.SagaManager
    const factory: AggregateFactory
    const createAccount: CreateAccountHandler
    const depositFunds: DepositFundsHandler
    const withdrawFunds: WithdrawFundsHandler
    const createInventory: CreateInventoryHandler
    const createOrder: CreateOrderHandler
    const removeInventory: RemoveInventoryHandler
    const rollbackAccount: RollbackAccountHandler

    ghost predicate Valid()
      reads this, publisher, publisher.queue, sagaManager, factory.store, factory.store.publisher, factory.store.publisher.queue
    {
      && publisher.Valid() && sagaManager.Valid() && factory.store.Valid()
      && createAccount.factory == depositFunds.factory == withdrawFunds.factory == factory
      && createInventory.factory == createOrder.factory == removeInventory.factory == rollbackAccount.factory == factory
    }

    constructor (publisher: Delivery.MemoryPublisher<Message>, sagaManager: Sagas.SagaManager, factory: AggregateFactory)
      requires publisher.Valid() && sagaManager.Valid() && factory.store.Valid()
      ensures Valid() && this.publisher == publisher && this.sagaManager == sagaManager && this.factory == factory
    {
      this.publisher, this.sagaManager, this.factory := publisher, sagaManager, factory;
      createAccount := new CreateAccountHandler(factory);
      depositFunds := new DepositFundsHandler(factory);
      withdrawFunds := new WithdrawFundsHandler(factory);
      createInventory := new CreateInventoryHandler(factory);
      createOrder := new CreateOrderHandler(factory);
      removeInventory := new RemoveInventoryHandler(factory);
      rollbackAccount := new RollbackAccountHandler(factory);
    }

    /** `BaseBus.executeLocal`: the handler of the command; what it throws becomes the result. */
    method RunHandler(m: Message, streamId: Id, row: Option<Row>, orderId: Id, nameTaken: bool, uuid: nat) returns (r: Outcome)
      requires Valid()
      modifies factory.store, factory.store.publisher, factory.store.publisher.queue
      ensures factory.store.Valid() && factory.store.publisher.queue == old(factory.store.publisher.queue)
      ensures CarriedOut(
                OrderSystem.Decide(RunNow(old(factory.store.streams), m, streamId, row, orderId), nameTaken, uuid), uuid,
                old(factory.store.streams), old(factory.store.publisher.View()),
                factory.store.streams, factory.store.publisher.View(), r)
    {
      if m.command.CreateInventory? || m.command.RemoveInventory? {
        r := RunInventoryHandler(m, streamId, row, orderId, nameTaken, uuid);
      } else {
        r := RunAccountHandler(m, streamId, row, orderId, nameTaken, uuid);
      }
    }

    /** The handlers that the inventory module registers. */
    method RunInventoryHandler(m: Message, streamId: Id, row: Option<Row>, orderId: Id, nameTaken: bool, uuid: nat) returns (r: Outcome)
      requires Valid() && (m.command.CreateInventory? || m.command.RemoveInventory?)
      modifies factory.store, factory.store.publisher, factory.store.publisher.queue
      ensures factory.store.Valid() && factory.store.publisher.queue == old(factory.store.publisher.queue)
      ensures CarriedOut(
                OrderSystem.Decide(RunNow(old(factory.store.streams), m, streamId, row, orderId), nameTaken, uuid), uuid,
                old(factory.store.streams), old(factory.store.publisher.View()),
                factory.store.streams, factory.store.publisher.View(), r)
    {
      hide CarriedOut, Load, Decisions.CreateAccount, Decisions.DepositFunds, Decisions.WithdrawFunds, Decisions.CreateInventory,
        Decisions.CreateOrder, Decisions.RemoveInventory, Decisions.RollbackAccount, Delivery.PublishAll, AppendAll, Replay;
      match m.command
      case CreateInventory(name, quantity, price) =>
        r := createInventory.Execute(streamId, name, quantity, price, nameTaken, m.corr, uuid);
      case RemoveInventory(inventoryId, _, quantity) => r := removeInventory.Execute(inventoryId, quantity, m.corr, uuid);
    }

    /** The handlers that the account module registers. */
    method RunAccountHandler(m: Message, streamId: Id, row: Option<Row>, orderId: Id, nameTaken: bool, uuid: nat) returns (r: Outcome)
      requires Valid() && !m.command.CreateInventory? && !m.command.RemoveInventory?
      modifies factory.store, factory.store.publisher, factory.store.publisher.queue
      ensures factory.store.Valid() && factory.store.publisher.queue == old(factory.store.publisher.queue)
      ensures CarriedOut(
                OrderSystem.Decide(RunNow(old(factory.store.streams), m, streamId, row, orderId), nameTaken, uuid), uuid,
                old(factory.store.streams), old(factory.store.publisher.View()),
                factory.store.streams, factory.store.publisher.View(), r)
    {
      hide CarriedOut, Load, Decisions.CreateAccount, Decisions.DepositFunds, Decisions.WithdrawFunds, Decisions.CreateInventory,
        Decisions.CreateOrder, Decisions.RemoveInventory, Decisions.RollbackAccount, Delivery.PublishAll, AppendAll, Replay;
      match m.command
      case CreateAccount(name, balance) => r := createAccount.Execute(streamId, name, balance, m.corr, uuid);
      case DepositFunds(accountId, funds) => r := depositFunds.Execute(accountId, funds, m.corr, uuid);
      case WithdrawFunds(accountId, funds) => r := withdrawFunds.Execute(accountId, funds, m.corr, uuid);
      case CreateOrder(accountId, inventoryId, quantity) =>
        r := createOrder.Execute(row, accountId, inventoryId, quantity, orderId, m.corr, uuid);
      case RollbackAccount(stream, correlationId) => r := rollbackAccount.Execute(stream, correlationId, m.corr, uuid);
    }

    method PublishEach(ms: seq<Message>)
      requires publisher.Valid()
      modifies publisher, publisher.queue
      ensures publisher.Valid() && publisher.queue == old(publisher.queue)
      ensures publisher.View() == Delivery.PublishAll(old(publisher.View()), ms)
    {
      for i := 0 to |ms|
        invariant publisher.Valid() && publisher.queue == old(publisher.queue)
        invariant publisher.View() == Delivery.PublishAll(old(publisher.View()), ms[..i])
      {
        assert ms[..i + 1][..i] == ms[..i];
        publisher.PublishItem(ms[i]);
      }
      assert ms[..|ms|] == ms;
    }

    /** `CommandBus.executeLocal`: a thrown error first publishes the rollback commands registered
        for the correlation of the command, then goes to its filter. */
    method ExecuteLocal(m: Message, streamId: Id, row: Option<Row>, orderId: Id, nameTaken: bool, uuid: nat)
      requires Valid()
      modifies publisher, publisher.queue, factory.store, factory.store.publisher, factory.store.publisher.queue
      ensures publisher.Valid() && publisher.queue == old(publisher.queue)
      ensures factory.store.Valid() && factory.store.publisher.queue == old(factory.store.publisher.queue)
      ensures Concludes(
                sagaManager.cache.sets, m,
                OrderSystem.Decide(RunNow(old(factory.store.streams), m, streamId, row, orderId), nameTaken, uuid),
                old(factory.store.streams), old(factory.store.publisher.View()), old(publisher.View()),
                factory.store.streams, factory.store.publisher.View(), publisher.View())
    {
      hide RunNow, OrderSystem.Decide, OrderSystem.Conclude, Sagas.RollbackMessages, Report, AppendAll, Delivery.PublishAll;
      ghost var d := OrderSystem.Decide(RunNow(factory.store.streams, m, streamId, row, orderId), nameTaken, uuid);
      var r := RunHandler(m, streamId, row, orderId, nameTaken, uuid);
      Concluded(sagaManager.cache.sets, m, d, publisher.View());
      if r.Err? {
        var rollbackCommands := sagaManager.RollbackSagas(m.corr);
        PublishEach(rollbackCommands);
        CatchError(r.error, uuid);
      }
    }

    /** `execute`: missing ids are made up; a command of a local domain runs at once, any other is
        published. */
    method Execute(
        m: Message, streamId: Id, freshCorr: Id, freshStream: Id, isLocal: bool,
        row: Option<Row>, orderId: Id, nameTaken: bool, uuid: nat) returns (corr: Id, stream: Id)
      requires Valid()
      modifies publisher, publisher.queue, factory.store, factory.store.publisher, factory.store.publisher.queue
      ensures publisher.Valid() && publisher.queue == old(publisher.queue)
      ensures factory.store.Valid() && factory.store.publisher.queue == old(factory.store.publisher.queue)
      ensures corr == (if m.corr == UNSET then freshCorr else m.corr) && stream == (if streamId == UNSET then freshStream else streamId)
      ensures var m' := m.(corr := corr);
              if isLocal then
                Concludes(
                  sagaManager.cache.sets, m',
                  OrderSystem.Decide(RunNow(old(factory.store.streams), m', stream, row, orderId), nameTaken, uuid),
                  old(factory.store.streams), old(factory.store.publisher.View()), old(publisher.View()),
                  factory.store.streams, factory.store.publisher.View(), publisher.View())
              else
                && factory.store.streams == old(factory.store.streams)
                && factory.store.publisher.View() == old(factory.store.publisher.View())
                && publisher.View() == Delivery.Publish(old(publisher.View()), m')
    {
      hide RunNow, OrderSystem.Decide, Concludes, Delivery.Publish;
      corr := if m.corr == UNSET then freshCorr else m.corr;
      stream := if streamId == UNSET then freshStream else streamId;
      if isLocal {
        ExecuteLocal(m.(corr := corr), stream, row, orderId, nameTaken, uuid);
      } else {
        publisher.PublishItem(m.(corr := corr));
      }
    }

    /** The filter registered for the error, if there is one. */
    method CatchError(e: Exception, uuid: nat)
      requires factory.store.Valid()
      modifies factory.store, factory.store.publisher, factory.store.publisher.queue
      ensures factory.store.Valid() && factory.store.publisher.queue == old(factory.store.publisher.queue)
      ensures factory.store.streams == AppendAll(old(factory.store.streams), Report(e, uuid))
      ensures factory.store.publisher.View() == Delivery.PublishAll(old(factory.store.publisher.View()), Report(e, uuid))
    {
      var reported := Report(e, uuid);
      if reported != [] {
        factory.store.AppendToStream(reported);
      }
    }
  }

  lemma Concluded(sets: Caches.Sets, m: Message, d: Decision, bus: Delivery.Publisher<Message>)
    ensures Delivery.PublishAll(bus, []) == bus
    ensures var after := OrderSystem.Conclude(OrderSystem.INIT.(sets := sets), m, d);
            match d
            case Commit(es) => after.log == es && after.events == es && after.commands == []
            case Throw(reported) =>
              after.log == reported && after.events == reported && after.commands == Sagas.RollbackMessages(sets, m.corr)
  {
    match d
    case Commit(es) => assert [] + es == es;
    case Throw(reported) =>
      assert [] + reported == reported;
      assert [] + Sagas.RollbackMessages(sets, m.corr) == Sagas.RollbackMessages(sets, m.corr);
  }

  class EventBus {
    const commandBus: CommandBus
    const sagaManager: Sagas.SagaManager
    const inventories: InventoryProjectionHandler

    ghost predicate Valid()
      reads this, sagaManager, commandBus.publisher, commandBus.publisher.queue, inventories.factory.store,
            inventories.factory.store.publisher, inventories.factory.store.publisher.queue
    {
      && sagaManager.Valid() && commandBus.publisher.Valid() && inventories.factory.store.Valid()
      && Sagas.StepsOf(sagaManager.sagas) == [Sagas.PROCESS_ORDER]
    }

    constructor (commandBus: CommandBus, sagaManager: Sagas.SagaManager, inventories: InventoryProjectionHandler)
      requires commandBus.publisher.Valid() && inventories.factory.store.Valid()
      requires sagaManager.Valid() && Sagas.StepsOf(sagaManager.sagas) == [Sagas.PROCESS_ORDER]
      ensures Valid() && this.commandBus == commandBus && this.sagaManager == sagaManager && this.inventories == inventories
    {
      this.commandBus, this.sagaManager, this.inventories := commandBus, sagaManager, inventories;
    }

    /** `EventBus.executeLocal`. `failing`: whether a handler of an account or an order projection,
        which are not part of this model, rejects. */
    method ExecuteLocal(e: Event, failing: bool) returns (rejected: bool)
      requires Valid()
      modifies inventories`rows, sagaManager.cache`sets, commandBus.publisher, commandBus.publisher.queue
      ensures commandBus.publisher.Valid() && commandBus.publisher.queue == old(commandBus.publisher.queue)
      ensures !e.body.InventoryCreated? && !e.body.InventoryRemoved? ==> rejected == (failing && OrderSystem.Handled(e.body))
      ensures e.body.InventoryCreated? || e.body.InventoryRemoved? ==>
                (rejected <==> match Replay(Inventories.HANDLERS, Load(inventories.factory.store.streams, e.stream))
                               case Ok(inventory) => Project(inventory).None?
                               case Err(_) => true)
      ensures var d := OrderSystem.Delivery(e, Load(inventories.factory.store.streams, e.stream), false, []);
              var before := OrderSystem.INIT.(rows := old(inventories.rows), sets := old(sagaManager.cache.sets));
              var after := OrderSystem.SettleEvent(before, d, rejected);
              && inventories.rows == after.rows && sagaManager.cache.sets == after.sets
              && commandBus.publisher.View() == Delivery.PublishAll(old(commandBus.publisher.View()), after.delivery.value.outbox)
    {
      hide Sagas.RollbackMessages, Sagas.ProcessAll, Load, ReplayFrom, Delivery.PublishAll, OrderSystem.SaveRow, Project;
      rejected := RunHandlers(e, failing);
      var commands: seq<Message>;
      if rejected {
        commands := sagaManager.RollbackSagas(e.corr);
      } else {
        commands := sagaManager.ApplyEventToSagas(e);
      }
      commandBus.PublishEach(OrderSystem.Correlate(commands, e.corr));
    }

    /** The handlers of the event; whether one of them rejected. */
    method RunHandlers(e: Event, failing: bool) returns (rejected: bool)
      requires inventories.factory.store.Valid()
      modifies inventories`rows
      ensures !e.body.InventoryCreated? && !e.body.InventoryRemoved? ==> rejected == (failing && OrderSystem.Handled(e.body))
      ensures e.body.InventoryCreated? || e.body.InventoryRemoved? ==>
                (rejected <==> match Replay(Inventories.HANDLERS, Load(inventories.factory.store.streams, e.stream))
                               case Ok(inventory) => Project(inventory).None?
                               case Err(_) => true)
      ensures rejected ==> OrderSystem.Handled(e.body) && inventories.rows == old(inventories.rows)
      ensures !rejected ==>
        inventories.rows == OrderSystem.SaveRow(old(inventories.rows), e, Load(inventories.factory.store.streams, e.stream))
    {
      hide Load, ReplayFrom;
      if e.body.InventoryCreated? || e.body.InventoryRemoved? {
        var saved := inventories.Execute(e.stream);
        rejected := saved.None?;
      } else {
        rejected := failing && OrderSystem.Handled(e.body);
      }
    }
  }

  // ---- The buses carry out the steps of the order system ----

  /** A store that holds a log. */
  ghost predicate Holds(streams: Streams, log: seq<Event>) {
    forall id :: Load(streams, id) == OfStream(log, id)
  }

  lemma AppendHolds(streams: Streams, log: seq<Event>, es: seq<Event>)
    requires Holds(streams, log)
    ensures Holds(AppendAll(streams, es), log + es)
  {
    forall id
      ensures Load(AppendAll(streams, es), id) == OfStream(log + es, id)
    {
      LoadAfterAppend(streams, es, id);
      FilterAppend(log, es, (e: Event) => e.stream == id);
    }
  }

  lemma ConcludeAdds(s: OrderSystem.System, m: Message, d: Decision)
    ensures var after := OrderSystem.Conclude(OrderSystem.INIT.(sets := s.sets), m, d);
            var s' := OrderSystem.Conclude(s, m, d);
            s' == s.(log := s.log + after.log, events := s.events + after.events, commands := s.commands + after.commands,
                     nextId := s.nextId + |after.log|)
  {
    hide Sagas.RollbackMessages;
    assert s.commands + [] == s.commands;
  }

  lemma StartReads(s: OrderSystem.System, m: Message, streams: Streams, streamId: Id, orderId: Id)
    requires Holds(streams, s.log)
    ensures OrderSystem.Start(s, m, streamId, orderId)
         == RunNow(streams, m, streamId, OrderSystem.Start(s, m, streamId, orderId).row, orderId)
  {
  }

  /** What a step added to the queues of the system. */
  function NewEvents(s: OrderSystem.System, s': OrderSystem.System): seq<Event>
    requires |s.events| <= |s'.events|
  {
    s'.events[|s.events|..]
  }

  function NewCommands(s: OrderSystem.System, s': OrderSystem.System): seq<Message>
    requires |s.commands| <= |s'.commands|
  {
    s'.commands[|s.commands|..]
  }

  /** Store and publishers after a conclusion, as the state after the concluding step shows them. */
  ghost predicate Follows(
      s: OrderSystem.System, s': OrderSystem.System, events: EventQueue, commands: CommandQueue,
      streams': Streams, events': EventQueue, commands': CommandQueue)
  {
    && Holds(streams', s'.log) && s'.sets == s.sets
    && |s.events| <= |s'.events| && events' == Delivery.PublishAll(events, NewEvents(s, s'))
    && |s.commands| <= |s'.commands| && commands' == Delivery.PublishAll(commands, NewCommands(s, s'))
  }

  lemma ConcludesFollows(
      s: OrderSystem.System, m: Message, d: Decision, streams: Streams, events: EventQueue, commands: CommandQueue,
      streams': Streams, events': EventQueue, commands': CommandQueue)
    requires Holds(streams, s.log)
    requires Concludes(s.sets, m, d, streams, events, commands, streams', events', commands')
    ensures Follows(s, OrderSystem.Conclude(s, m, d), events, commands, streams', events', commands')
  {
    hide Holds, OrderSystem.Conclude, AppendAll, Delivery.PublishAll;
    ConcludeAdds(s, m, d);
    AppendHolds(streams, s.log, OrderSystem.Conclude(OrderSystem.INIT.(sets := s.sets), m, d).log);
  }

  /** The bus and its store as a state of the order system shows them. */
  ghost predicate Shows(bus: CommandBus, s: OrderSystem.System)
    reads bus.factory.store, bus.sagaManager.cache
  {
    Holds(bus.factory.store.streams, s.log) && bus.sagaManager.cache.sets == s.sets
  }

  /** Taking a published command and finishing it, with nothing in between, is a call of
      `executeLocal`: store and publishers follow the two steps. */
  method HandlePublished(bus: CommandBus, m: Message, row: Option<Row>, uuid: nat, ghost s: OrderSystem.System, ghost i: nat)
    requires bus.Valid() && Shows(bus, s)
    requires OrderSystem.Enabled(s, OrderSystem.TakeCommand(i)) && m == s.commands[i] && uuid == s.nextId
    requires row == OrderSystem.Start(s, m, UNSET, UNSET).row
    modifies bus.publisher, bus.publisher.queue,
             bus.factory.store, bus.factory.store.publisher, bus.factory.store.publisher.queue
    ensures bus.publisher.Valid() && bus.factory.store.Valid()
    ensures Follows(
              s.(commands := OrderSystem.RemoveAt(s.commands, i)),
              OrderSystem.Step(OrderSystem.Step(s, OrderSystem.TakeCommand(i)), OrderSystem.FinishCommand),
              old(bus.factory.store.publisher.View()), old(bus.publisher.View()),
              bus.factory.store.streams, bus.factory.store.publisher.View(), bus.publisher.View())
  {
    hide RunNow, OrderSystem.Start, OrderSystem.Decide, OrderSystem.Conclude, OrderSystem.Step, Holds, Concludes, Follows;
    ghost var taken := s.(commands := OrderSystem.RemoveAt(s.commands, i));
    ghost var d := OrderSystem.Decide(OrderSystem.Start(s, m, UNSET, UNSET), false, s.nextId);
    ghost var streams, events, commands := bus.factory.store.streams, bus.factory.store.publisher.View(), bus.publisher.View();
    PublishedStep(s, i, m, d);
    StartReads(s, m, streams, UNSET, UNSET);
    bus.ExecuteLocal(m, UNSET, row, UNSET, false, uuid);
    ConcludesFollows(taken, m, d, streams, events, commands,
                     bus.factory.store.streams, bus.factory.store.publisher.View(), bus.publisher.View());
  }

  lemma PublishedStep(s: OrderSystem.System, i: nat, m: Message, d: Decision)
    requires OrderSystem.Enabled(s, OrderSystem.TakeCommand(i)) && m == s.commands[i]
    requires d == OrderSystem.Decide(OrderSystem.Start(s, m, UNSET, UNSET), false, s.nextId)
    ensures OrderSystem.Step(OrderSystem.Step(s, OrderSystem.TakeCommand(i)), OrderSystem.FinishCommand)
         == OrderSystem.Conclude(s.(commands := OrderSystem.RemoveAt(s.commands, i)), m, d)
  {
    hide OrderSystem.Decide, OrderSystem.Conclude;
  }

  /** A request and its end, with nothing in between, are a call of `execute` that brings no ids. */
  method HandleRequest(
      bus: CommandBus, c: Command, row: Option<Row>, nameTaken: bool, base: nat, ghost s: OrderSystem.System)
      returns (corr: Id, stream: Id)
    requires bus.Valid() && Shows(bus, s)
    requires OrderSystem.Enabled(s, OrderSystem.Request(c)) && base == OrderSystem.Max(s.nextId, OrderSystem.Mentioned(c))
    requires row == OrderSystem.Start(s, Message(c, UNSET), UNSET, UNSET).row
    modifies bus.publisher, bus.publisher.queue,
             bus.factory.store, bus.factory.store.publisher, bus.factory.store.publisher.queue
    ensures bus.publisher.Valid() && bus.factory.store.Valid()
    ensures corr == Uuid(base) && stream == Uuid(base + 1)
    ensures var s1 := OrderSystem.Step(s, OrderSystem.Request(c));
            && OrderSystem.Enabled(s1, OrderSystem.Finish(|s.runs|, nameTaken))
            && OrderSystem.Step(s1, OrderSystem.Finish(|s.runs|, nameTaken)).runs == s.runs
            && Follows(s, OrderSystem.Step(s1, OrderSystem.Finish(|s.runs|, nameTaken)),
                       old(bus.factory.store.publisher.View()), old(bus.publisher.View()),
                       bus.factory.store.streams, bus.factory.store.publisher.View(), bus.publisher.View())
  {
    hide RunNow, OrderSystem.Start, OrderSystem.Decide, OrderSystem.Conclude, OrderSystem.Step, OrderSystem.Accept,
      OrderSystem.Enabled, Holds, Concludes, Follows, Uuid;
    ghost var m := Message(c, Uuid(base));
    ghost var d := OrderSystem.Decide(OrderSystem.Start(s, m, Uuid(base + 1), Uuid(base + 2)), nameTaken, base + 3);
    ghost var ended := OrderSystem.Accept(s, c).(runs := s.runs);
    ghost var streams, events, commands := bus.factory.store.streams, bus.factory.store.publisher.View(), bus.publisher.View();
    RequestSteps(s, c, nameTaken, base, d);
    StartReads(s, m, streams, Uuid(base + 1), Uuid(base + 2));
    SameRow(s, c, Uuid(base), Uuid(base + 1), Uuid(base + 2));
    corr, stream := bus.Execute(Message(c, UNSET), UNSET, Uuid(base), Uuid(base + 1), true, row, Uuid(base + 2), nameTaken, base + 3);
    ConcludesFollows(ended, m, d, streams, events, commands,
                     bus.factory.store.streams, bus.factory.store.publisher.View(), bus.publisher.View());
    FollowsSame(ended, s, OrderSystem.Conclude(ended, m, d), events, commands,
                bus.factory.store.streams, bus.factory.store.publisher.View(), bus.publisher.View());
  }

  lemma SameRow(s: OrderSystem.System, c: Command, corr: Id, streamId: Id, orderId: Id)
    ensures OrderSystem.Start(s, Message(c, corr), streamId, orderId).row == OrderSystem.Start(s, Message(c, UNSET), UNSET, UNSET).row
  {
  }

  lemma FollowsSame(
      s: OrderSystem.System, t: OrderSystem.System, s': OrderSystem.System, events: EventQueue, commands: CommandQueue,
      streams': Streams, events': EventQueue, commands': CommandQueue)
    requires s.events == t.events && s.commands == t.commands && s.sets == t.sets
    requires Follows(s, s', events, commands, streams', events', commands')
    ensures Follows(t, s', events, commands, streams', events', commands')
  {
  }

  lemma RequestSteps(s: OrderSystem.System, c: Command, nameTaken: bool, base: nat, d: Decision)
    requires OrderSystem.Enabled(s, OrderSystem.Request(c)) && base == OrderSystem.Max(s.nextId, OrderSystem.Mentioned(c))
    requires var r := OrderSystem.Start(s, Message(c, Uuid(base)), Uuid(base + 1), Uuid(base + 2));
             d == OrderSystem.Decide(r, nameTaken, base + 3)
    ensures var s1 := OrderSystem.Step(s, OrderSystem.Request(c));
            && OrderSystem.Enabled(s1, OrderSystem.Finish(|s.runs|, nameTaken))
            && OrderSystem.Step(s1, OrderSystem.Finish(|s.runs|, nameTaken))
               == OrderSystem.Conclude(OrderSystem.Accept(s, c).(runs := s.runs), Message(c, Uuid(base)), d)
            && OrderSystem.Conclude(OrderSystem.Accept(s, c).(runs := s.runs), Message(c, Uuid(base)), d).runs == s.runs
            && var ended := OrderSystem.Accept(s, c).(runs := s.runs);
               ended.events == s.events && ended.commands == s.commands && ended.sets == s.sets && ended.log == s.log
  {
    hide OrderSystem.Decide, Uuid;
    var s1 := OrderSystem.Accept(s, c);
    assert OrderSystem.RemoveAt(s1.runs, |s.runs|) == s.runs;
  }

  /** Taking an event and settling its delivery, with nothing in between, is a call of the event
      bus; what it publishes is the outbox. */
  method HandleEvent(bus: EventBus, e: Event, failing: bool, ghost s: OrderSystem.System, ghost i: nat) returns (rejected: bool)
    requires bus.Valid() && Holds(bus.inventories.factory.store.streams, s.log)
    requires bus.inventories.rows == s.rows && bus.sagaManager.cache.sets == s.sets
    requires OrderSystem.Enabled(s, OrderSystem.TakeEvent(i)) && e == s.events[i]
    modifies bus.inventories`rows, bus.sagaManager.cache`sets, bus.commandBus.publisher, bus.commandBus.publisher.queue
    ensures bus.commandBus.publisher.Valid()
    ensures var s' := OrderSystem.Step(OrderSystem.Step(s, OrderSystem.TakeEvent(i)), OrderSystem.Settle(rejected));
            && bus.inventories.rows == s'.rows && bus.sagaManager.cache.sets == s'.sets && s'.delivery.Some?
            && bus.commandBus.publisher.View()
               == Delivery.PublishAll(old(bus.commandBus.publisher.View()), s'.delivery.value.outbox)
  {
    ghost var streams := bus.inventories.factory.store.streams;
    hide Sagas.ProcessAll, Sagas.RollbackMessages, Delivery.PublishAll, Replay, OrderSystem.SaveRow;
    rejected := bus.ExecuteLocal(e, failing);
    SettleOnStore(s, i, rejected, streams);
  }

  lemma SettleOnStore(s: OrderSystem.System, i: nat, rejected: bool, streams: Streams)
    requires OrderSystem.Enabled(s, OrderSystem.TakeEvent(i)) && Holds(streams, s.log)
    ensures var d := OrderSystem.Delivery(s.events[i], Load(streams, s.events[i].stream), false, []);
            var after := OrderSystem.SettleEvent(OrderSystem.INIT.(rows := s.rows, sets := s.sets), d, rejected);
            var s' := OrderSystem.Step(OrderSystem.Step(s, OrderSystem.TakeEvent(i)), OrderSystem.Settle(rejected));
            s'.rows == after.rows && s'.sets == after.sets && s'.delivery == after.delivery
  {
    hide Sagas.ProcessAll, Sagas.RollbackMessages;
  }
}
