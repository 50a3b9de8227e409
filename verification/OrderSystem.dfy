/** The order saga as a system of handlers over one event store, one command queue, one event
    queue and one cache.

    A handler run reads the stream when it starts and decides when it ends; any other step may
    come in between. Commands from outside run at once and concurrently; published commands run
    one at a time, and so do event deliveries (`Delivery` shows why). Queued messages are taken in
    any order, which includes the order they were published in. */
module OrderSystem {
  import opened Wrappers
  import opened Events
  import opened Aggregates
  import opened Messages
  import opened Decisions
  import Accounts
  import Inventories
  import Sagas
  import Caches

  /** A command handler between its read and its commit. */
  datatype Run = Run(message: Message, streamId: Id, orderId: Id, row: Option<Row>, snapshot: seq<Event>)

  /** An event in delivery; once settled, the commands still to be published. */
  datatype Delivery = Delivery(event: Event, snapshot: seq<Event>, settled: bool, outbox: seq<Message>)

  datatype System = System(
    /** Everything committed, in commit order; a stream is the part addressed to it. */
    log: seq<Event>,
    rows: map<Id, Row>,
    /** Ids handed out for inventories. */
    inventories: set<Id>,
    events: seq<Event>,
    delivery: Option<Delivery>,
    commands: seq<Message>,
    worker: Option<Run>,
    runs: seq<Run>,
    /** The cache sets that hold the registered rollback commands. */
    sets: Caches.Sets,
    /** Longer than every id in use, so the next `randomUUID` differs from all of them. */
    nextId: nat)

  const INIT := System([], map[], {}, [], None, [], None, [], map[], 0)

  datatype Label =
    | Request(command: Command)
    | Finish(run: nat, nameTaken: bool)
    | TakeCommand(index: nat)
    | FinishCommand
    | TakeEvent(index: nat)
    | Settle(rejected: bool)
    | PublishNext
    | Acknowledge

  function RemoveAt<T>(s: seq<T>, i: nat): seq<T>
    requires i < |s|
  {
    s[..i] + s[i + 1..]
  }

  function Max(a: nat, b: nat): nat {
    if a < b then b else a
  }

  /** The longest id a request mentions. */
  function Mentioned(c: Command): nat {
    match c
    case DepositFunds(accountId, _) => |accountId|
    case WithdrawFunds(accountId, _) => |accountId|
    case CreateOrder(accountId, inventoryId, _) => Max(|accountId|, |inventoryId|)
    case _ => 0
  }

  /** What the gateway lets through: only the public commands, whose account ids are colon free
      (they are validated to be UUIDs) and are not ids of inventories. */
  predicate Admissible(s: System, c: Command) {
    match c
    case CreateAccount(_, _) => true
    case CreateInventory(_, _, _) => true
    case DepositFunds(accountId, _) => accountId !in s.inventories
    case WithdrawFunds(accountId, _) => accountId !in s.inventories
    case CreateOrder(accountId, _, _) => accountId !in s.inventories && ':' !in accountId
    case _ => false
  }

  /** The stream a handler reads. */
  function Target(c: Command, streamId: Id): Id {
    match c
    case DepositFunds(accountId, _) => accountId
    case WithdrawFunds(accountId, _) => accountId
    case CreateOrder(accountId, _, _) => accountId
    case RemoveInventory(inventoryId, _, _) => inventoryId
    case RollbackAccount(stream, _) => stream
    case _ => streamId
  }

  /** Up to the read: `FindInventoryByIdQuery` where the handler asks it, then `mergeContext`. */
  function Start(s: System, m: Message, streamId: Id, orderId: Id): Run {
    var row :=
      if m.command.CreateOrder? && m.command.inventoryId in s.rows then Some(s.rows[m.command.inventoryId]) else None;
    Run(m, streamId, orderId, row, OfStream(s.log, Target(m.command, streamId)))
  }

  function Decide(r: Run, nameTaken: bool, uuid: nat): Decision {
    var corr := r.message.corr;
    match r.message.command
    case CreateAccount(name, balance) => Decisions.CreateAccount(r.snapshot, r.streamId, name, balance, corr, uuid)
    case DepositFunds(accountId, funds) => Decisions.DepositFunds(r.snapshot, accountId, funds, corr, uuid)
    case WithdrawFunds(accountId, funds) => Decisions.WithdrawFunds(r.snapshot, accountId, funds, corr, uuid)
    case CreateInventory(name, quantity, price) =>
      Decisions.CreateInventory(r.snapshot, r.streamId, name, quantity, price, nameTaken, corr, uuid)
    case CreateOrder(accountId, inventoryId, quantity) =>
      Decisions.CreateOrder(r.snapshot, r.row, accountId, inventoryId, quantity, r.orderId, corr, uuid)
    case RemoveInventory(inventoryId, _, quantity) =>
      Decisions.RemoveInventory(r.snapshot, inventoryId, quantity, corr, uuid)
    case RollbackAccount(stream, correlationId) =>
      Decisions.RollbackAccount(r.snapshot, stream, correlationId, corr, uuid)
  }

  /** Store, then publish. */
  function Append(s: System, es: seq<Event>): System {
    s.(log := s.log + es, events := s.events + es, nextId := s.nextId + |es|)
  }

  /** The end of `CommandBus.executeLocal`: a throw publishes the rollback commands registered for
      the correlation of the command, then runs the filter of the error. */
  function Conclude(s: System, m: Message, d: Decision): System {
    match d
    case Commit(es) => Append(s, es)
    case Throw(reported) =>
      Append(s.(commands := s.commands + Sagas.RollbackMessages(s.sets, m.corr)), reported)
  }

  /** `CommandBus.execute` for a command from outside: it gets ids of its own and runs locally. */
  function Accept(s: System, c: Command): System {
    var base := Max(s.nextId, Mentioned(c));
    var streamId := Uuid(base + 1);
    s.(runs := s.runs + [Start(s, Message(c, Uuid(base)), streamId, Uuid(base + 2))],
       inventories := if c.CreateInventory? then s.inventories + {streamId} else s.inventories,
       nextId := base + 3)
  }

  /** Whether some event handler is registered for the event. There is none for
      RollbackFundsWithdrawn and for the two failure events. */
  predicate Handled(b: Body) {
    !b.RollbackFundsWithdrawn? && !b.FundsWithdrawalFailed? && !b.InventoryCreatedFailed?
  }

  /** EventBus gives a command the correlation of the event, if the event has one. */
  function Correlate(ms: seq<Message>, c: Id): (r: seq<Message>)
    ensures |r| == |ms|
  {
    seq(|ms|, i requires 0 <= i < |ms| => if c == UNSET then ms[i] else ms[i].(corr := c))
  }

  /** What the inventory handlers save. */
  function SaveRow(rows: map<Id, Row>, e: Event, snapshot: seq<Event>): map<Id, Row> {
    if !e.body.InventoryCreated? && !e.body.InventoryRemoved? then rows
    else
      match Replay(Inventories.HANDLERS, snapshot)
      case Err(_) => rows
      case Ok(inventory) =>
        match Project(inventory)
        case None => rows
        case Some(row) => rows[e.stream := row]
  }

  /** `EventBus.executeLocal` once the handlers have settled. */
  function SettleEvent(s: System, d: Delivery, rejected: bool): System {
    var e := d.event;
    if rejected && Handled(e.body) then
      s.(delivery := Some(d.(settled := true, outbox := Correlate(Sagas.RollbackMessages(s.sets, e.corr), e.corr))))
    else
      var (sets, commands) := Sagas.ProcessAll(s.sets, [Sagas.PROCESS_ORDER], e);
      s.(rows := SaveRow(s.rows, e, d.snapshot), sets := sets,
         delivery := Some(d.(settled := true, outbox := Correlate(commands, e.corr))))
  }

  predicate Enabled(s: System, l: Label) {
    match l
    case Request(c) => Admissible(s, c)
    case Finish(i, _) => i < |s.runs|
    case TakeCommand(i) => i < |s.commands| && s.worker.None?
    case FinishCommand => s.worker.Some?
    case TakeEvent(i) => i < |s.events| && s.delivery.None?
    case Settle(_) => s.delivery.Some? && !s.delivery.value.settled
    case PublishNext => s.delivery.Some? && s.delivery.value.settled && s.delivery.value.outbox != []
    case Acknowledge => s.delivery.Some? && s.delivery.value.settled && s.delivery.value.outbox == []
  }

  function Step(s: System, l: Label): System
    requires Enabled(s, l)
  {
    match l
    case Request(c) => Accept(s, c)
    case Finish(i, nameTaken) =>
      Conclude(s.(runs := RemoveAt(s.runs, i)), s.runs[i].message, Decide(s.runs[i], nameTaken, s.nextId))
    case TakeCommand(i) =>
      s.(commands := RemoveAt(s.commands, i), worker := Some(Start(s, s.commands[i], UNSET, UNSET)))
    case FinishCommand =>
      Conclude(s.(worker := None), s.worker.value.message, Decide(s.worker.value, false, s.nextId))
    case TakeEvent(i) =>
      s.(events := RemoveAt(s.events, i),
         delivery := Some(Delivery(s.events[i], OfStream(s.log, s.events[i].stream), false, [])))
    case Settle(rejected) => SettleEvent(s, s.delivery.value, rejected)
    case PublishNext =>
      var d := s.delivery.value;
      s.(commands := s.commands + [d.outbox[0]], delivery := Some(d.(outbox := d.outbox[1..])))
    case Acknowledge => s.(delivery := None)
  }

  /** Nothing is pending and nothing is running. */
  predicate Quiescent(s: System) {
    s.events == [] && s.delivery.None? && s.commands == [] && s.worker.None? && s.runs == []
  }
}
