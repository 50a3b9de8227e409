/** What every step of the order system keeps.

    The invariant relates the system to a book with one entry for each order that was committed.
    The book is computed along a run from its labels; no step of the system reads it. */
module OrderInvariant {
  import opened Wrappers
  import opened Events
  import opened Aggregates
  import opened Messages
  import opened Decisions
  import opened OrderSystem
  import Accounts
  import Inventories
  import Sagas
  import Caches

  /** An order's way through the saga: its OrderCreated is still to be delivered; that delivery was
      rejected; RemoveInventory was issued and is pending; it removed; it threw. */
  datatype Phase = Placed | Refused | Issued | Removed | Failed

  /** `late`: a delivery of the correlation was rejected after its rollback was registered. */
  datatype Entry = Entry(order: Order, placed: Event, paid: Event, phase: Phase, late: bool)

  type Book = map<Id, Entry>

  predicate Registered(p: Phase) {
    p.Issued? || p.Removed? || p.Failed?
  }

  function Track(s: System, b: Book, l: Label): Book
    requires Enabled(s, l)
  {
    match l
    case Finish(i, nameTaken) =>
      var r := s.runs[i];
      if r.message.command.CreateOrder? && Decide(r, nameTaken, s.nextId).Commit? then
        var es := Decide(r, nameTaken, s.nextId).events;
        b[r.message.corr := Entry(es[0].body.order, es[0], es[1], Placed, false)]
      else b
    case FinishCommand =>
      var m := s.worker.value.message;
      if m.command.RemoveInventory? && m.corr in b then
        b[m.corr := b[m.corr].(phase := if Decide(s.worker.value, false, s.nextId).Commit? then Removed else Failed)]
      else b
    case Settle(rejected) =>
      var e := s.delivery.value.event;
      if e.corr !in b then b
      else if e.body.OrderCreated? then b[e.corr := b[e.corr].(phase := if rejected then Refused else Issued)]
      else if rejected && Handled(e.body) && Registered(b[e.corr].phase) then b[e.corr := b[e.corr].(late := true)]
      else b
    case _ => b
  }

  // ---- The parts of the log that belong to one order ----

  predicate InAccountPart(e: Event, c: Id) {
    e.corr == c && !e.body.InventoryRemoved?
  }

  predicate InRemovalPart(e: Event, c: Id) {
    e.corr == c && e.body.InventoryRemoved?
  }

  function AccountPart(log: seq<Event>, c: Id): seq<Event> {
    Filter(log, (e: Event) => InAccountPart(e, c))
  }

  function RemovalPart(log: seq<Event>, c: Id): seq<Event> {
    Filter(log, (e: Event) => InRemovalPart(e, c))
  }

  /** The two compensating events of an order, in the order they are applied. */
  predicate IsUndo(c: Id, order: Order, e: Event, e': Event) {
    && e.stream == e'.stream == order.accountId && e.corr == e'.corr == c
    && e.body == RollbackFundsWithdrawn(-order.cost)
    && e'.body == RollbackOrderCreated(order.id)
  }

  predicate RolledBack(log: seq<Event>, c: Id) {
    |AccountPart(log, c)| == 4
  }

  predicate AccountSide(log: seq<Event>, c: Id, e: Entry) {
    var part := AccountPart(log, c);
    || part == [e.placed, e.paid]
    || (|part| == 4 && part[0] == e.placed && part[1] == e.paid && IsUndo(c, e.order, part[2], part[3]))
  }

  predicate RemovalSide(log: seq<Event>, c: Id, e: Entry) {
    var part := RemovalPart(log, c);
    if e.phase.Removed? then
      |part| == 1 && part[0].stream == e.order.inventoryId && part[0].body == InventoryRemoved(e.order.quantity)
    else part == []
  }

  // ---- The invariant, one predicate for each part of the state ----

  predicate ProperId(c: Id, nextId: nat) {
    c != UNSET && c != "undefined" && |c| <= nextId
  }

  predicate EntryOk(c: Id, e: Entry, inventories: set<Id>, nextId: nat) {
    && ProperId(c, nextId) && |e.order.id| <= nextId && |e.order.accountId| <= nextId
    && ':' !in e.order.accountId && e.order.accountId !in inventories && e.order.inventoryId in inventories
    && e.placed == Event(e.placed.uuid, e.order.accountId, c, OrderCreated(e.order))
    && e.paid == Event(e.paid.uuid, e.order.accountId, c, FundsWithdrawn(-e.order.cost))
    && (e.late ==> Registered(e.phase))
  }

  ghost predicate BookOk(b: Book, inventories: set<Id>, nextId: nat) {
    && (forall c :: c in b ==> EntryOk(c, b[c], inventories, nextId))
    && (forall c, d :: c in b && d in b && c != d ==> b[c].order.id != b[d].order.id)
  }

  /** Only orders have events of these kinds. */
  predicate OrderBody(b: Body) {
    b.OrderCreated? || b.RollbackFundsWithdrawn? || b.RollbackOrderCreated? || b.InventoryRemoved?
  }

  ghost predicate LogOk(log: seq<Event>, b: Book) {
    && (forall c :: c in b ==> AccountSide(log, c, b[c]) && RemovalSide(log, c, b[c]))
    && (forall e :: e in log && OrderBody(e.body) ==> e.corr in b)
  }

  predicate InventoryBody(b: Body) {
    b.InventoryCreated? || b.InventoryRemoved? || b.InventoryCreatedFailed?
  }

  /** Inventory events are on inventory streams, and every other stream replays as an account. */
  ghost predicate StreamsOk(log: seq<Event>, inventories: set<Id>, nextId: nat) {
    && (forall e :: e in log ==> (InventoryBody(e.body) <==> e.stream in inventories))
    && (forall e :: e in log ==> |e.stream| <= nextId && |e.corr| <= nextId)
    && (forall id :: id in inventories ==> |id| <= nextId)
    && (forall id :: id !in inventories ==> Replay(Accounts.HANDLERS, OfStream(log, id)).Ok?)
  }

  predicate External(c: Command) {
    !c.RemoveInventory? && !c.RollbackAccount?
  }

  /** A run from outside has a correlation and an order id that nothing uses yet. */
  ghost predicate RunOk(r: Run, log: seq<Event>, b: Book, inventories: set<Id>, nextId: nat) {
    && External(r.message.command)
    && ProperId(r.message.corr, nextId) && |r.orderId| <= nextId && |r.streamId| <= nextId
    && r.message.corr !in b
    && (forall e :: e in log ==> e.corr != r.message.corr)
    && (forall c :: c in b ==> b[c].order.id != r.orderId)
    && |Target(r.message.command, r.streamId)| <= nextId
    && (r.message.command.CreateInventory? <==> Target(r.message.command, r.streamId) in inventories)
    && (r.message.command.CreateOrder? ==>
          ':' !in r.message.command.accountId && (r.row.Some? ==> r.message.command.inventoryId in inventories))
  }

  ghost predicate RunsOk(runs: seq<Run>, log: seq<Event>, b: Book, inventories: set<Id>, nextId: nat) {
    && (forall r :: r in runs ==> RunOk(r, log, b, inventories, nextId))
    && (forall i, j :: 0 <= i < j < |runs| ==>
          runs[i].message.corr != runs[j].message.corr && runs[i].orderId != runs[j].orderId)
  }

  /** Events whose handlers have not settled. */
  ghost function Due(s: System): multiset<Event> {
    multiset(s.events)
      + if s.delivery.Some? && !s.delivery.value.settled then multiset{s.delivery.value.event} else multiset{}
  }

  /** An OrderCreated event is due exactly while its order is placed, and then once. */
  ghost predicate DueOk(due: multiset<Event>, log: seq<Event>, b: Book) {
    && (forall e :: e in due ==> e in log)
    && (forall e :: e in due && e.body.OrderCreated? ==> e.corr in b && e == b[e.corr].placed)
    && (forall c :: c in b ==> due[b[c].placed] == if b[c].phase.Placed? then 1 else 0)
  }

  /** Commands in the outbox of a settled delivery, in the queue, or with the worker. */
  ghost function Work(s: System): multiset<Message> {
    multiset(s.commands)
      + (if s.delivery.Some? && s.delivery.value.settled then multiset(s.delivery.value.outbox) else multiset{})
      + (if s.worker.Some? then multiset{s.worker.value.message} else multiset{})
  }

  function RemoveMessage(c: Id, o: Order): Message {
    Message(RemoveInventory(o.inventoryId, o.id, o.quantity), c)
  }

  function RollbackMessage(c: Id, o: Order, corr: Id): Message {
    Message(RollbackAccount(o.accountId, c), corr)
  }

  ghost predicate MessageOk(m: Message, b: Book) {
    match m.command
    case RemoveInventory(_, _, _) => m.corr in b && m == RemoveMessage(m.corr, b[m.corr].order)
    case RollbackAccount(stream, c) =>
      && c in b && Registered(b[c].phase) && stream == b[c].order.accountId && (m.corr == UNSET || m.corr == c)
    case _ => false
  }

  /** RemoveInventory is pending exactly while its order is issued, and then once; a rollback
      command is only ever pending for an order whose rollback is registered. */
  ghost predicate WorkOk(work: multiset<Message>, b: Book) {
    && (forall m :: m in work ==> MessageOk(m, b))
    && (forall c :: c in b ==> work[RemoveMessage(c, b[c].order)] == if b[c].phase.Issued? then 1 else 0)
  }

  ghost predicate RollbackPending(work: multiset<Message>, c: Id, o: Order) {
    RollbackMessage(c, o, UNSET) in work || RollbackMessage(c, o, c) in work
  }

  /** An order is rolled back, or its rollback is pending, exactly when its removal threw or a
      later delivery was rejected. */
  ghost predicate CompensationOwed(work: multiset<Message>, log: seq<Event>, b: Book) {
    forall c :: c in b ==>
      ((b[c].late || b[c].phase.Failed?) <==> (RolledBack(log, c) || RollbackPending(work, c, b[c].order)))
  }

  ghost predicate RegistryOk(sets: Caches.Sets, b: Book) {
    forall c ::
      Caches.Members(sets, Sagas.SetKey(c)) ==
        if c in b && Registered(b[c].phase) then [Sagas.Entry(Sagas.ROLLBACK_ACCOUNT, b[c].order.accountId)] else []
  }

  /** The worker read the whole of what its rollback concerns. */
  ghost predicate WorkerOk(worker: Option<Run>, log: seq<Event>) {
    worker.Some? && worker.value.message.command.RollbackAccount? ==>
      var r := worker.value;
      && Replay(Accounts.HANDLERS, r.snapshot).Ok?
      && OfCorrelation(r.snapshot, r.message.command.correlationId) == AccountPart(log, r.message.command.correlationId)
  }

  ghost predicate Inv(s: System, b: Book) {
    && BookOk(b, s.inventories, s.nextId)
    && LogOk(s.log, b)
    && StreamsOk(s.log, s.inventories, s.nextId)
    && RunsOk(s.runs, s.log, b, s.inventories, s.nextId)
    && DueOk(Due(s), s.log, b)
    && WorkOk(Work(s), b)
    && CompensationOwed(Work(s), s.log, b)
    && RegistryOk(s.sets, b)
    && WorkerOk(s.worker, s.log)
    && s.rows.Keys <= s.inventories
  }
}
