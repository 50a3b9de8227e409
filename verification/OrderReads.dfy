/** What handlers have read: every snapshot in the order system is a beginning of its stream, and what
    the rows show of an inventory, name and price, is what it was created with. */
module OrderReads {
  import opened Wrappers
  import opened Events
  import opened Aggregates
  import opened Messages
  import opened Decisions
  import opened OrderSystem
  import opened OrderInvariant
  import opened OrderPreservation
  import opened OrderRuns
  import opened OrderHistory
  import opened LiveOrders
  import opened OrderAtomicity
  import opened OrderLedger
  import Accounts
  import Inventories
  import Sagas

  /** The event that created an inventory under a name and at a price. */
  ghost predicate CreatedAs(log: seq<Event>, id: Id, name: string, price: int) {
    exists e :: e in log && e.stream == id && e.body.InventoryCreated? && e.body.name == name && e.body.price == price
  }

  ghost predicate RunReads(r: Run, log: seq<Event>) {
    && r.snapshot <= OfStream(log, Target(r.message.command, r.streamId))
    && (r.message.command.CreateOrder? && r.row.Some? ==>
          CreatedAs(log, r.message.command.inventoryId, r.row.value.name, r.row.value.price))
    && (r.message.command.RemoveInventory? ==> r.snapshot != [])
  }

  ghost predicate Reads(s: System) {
    && (forall r :: r in s.runs ==> RunReads(r, s.log))
    && (s.worker.Some? ==> RunReads(s.worker.value, s.log))
    && (s.delivery.Some? && !s.delivery.value.settled ==>
          s.delivery.value.snapshot <= OfStream(s.log, s.delivery.value.event.stream))
    && (forall id :: id in s.rows ==> CreatedAs(s.log, id, s.rows[id].name, s.rows[id].price))
  }

  lemma StreamGrows(log: seq<Event>, es: seq<Event>, id: Id)
    ensures OfStream(log, id) <= OfStream(log + es, id)
  {
    FilterAppend(log, es, (e: Event) => e.stream == id);
  }

  lemma CreatedAsGrows(log: seq<Event>, es: seq<Event>, id: Id, name: string, price: int)
    requires CreatedAs(log, id, name, price)
    ensures CreatedAs(log + es, id, name, price)
  {
    var e :| e in log && e.stream == id && e.body.InventoryCreated? && e.body.name == name && e.body.price == price;
    assert e in log + es;
  }

  lemma RunReadsOn(r: Run, log: seq<Event>, es: seq<Event>)
    requires RunReads(r, log)
    ensures RunReads(r, log + es)
  {
    hide CreatedAs, OfStream;
    StreamGrows(log, es, Target(r.message.command, r.streamId));
    if r.message.command.CreateOrder? && r.row.Some? {
      CreatedAsGrows(log, es, r.message.command.inventoryId, r.row.value.name, r.row.value.price);
    }
  }

  /** A step that appends and at most ends a run. */
  lemma AppendReads(s: System, es: seq<Event>, s': System)
    requires Reads(s) && s'.log == s.log + es && s'.delivery == s.delivery && s'.rows == s.rows
    requires (forall r :: r in s'.runs ==> r in s.runs) && (s'.worker == s.worker || s'.worker.None?)
    ensures Reads(s')
  {
    hide CreatedAs, OfStream, RunReads;
    forall r | r in s'.runs
      ensures RunReads(r, s'.log)
    {
      RunReadsOn(r, s.log, es);
    }
    if s'.worker.Some? {
      RunReadsOn(s.worker.value, s.log, es);
    }
    if s.delivery.Some? {
      StreamGrows(s.log, es, s.delivery.value.event.stream);
    }
    forall id | id in s.rows
      ensures CreatedAs(s'.log, id, s.rows[id].name, s.rows[id].price)
    {
      CreatedAsGrows(s.log, es, id, s.rows[id].name, s.rows[id].price);
    }
  }

  /** What a new run reads. */
  lemma StartReads(s: System, m: Message, streamId: Id, orderId: Id)
    requires Reads(s)
    requires m.command.RemoveInventory? ==> OfStream(s.log, m.command.inventoryId) != []
    ensures RunReads(Start(s, m, streamId, orderId), s.log)
  {
  }

  lemma RequestKeepsReads(s: System, c: Command)
    requires Enabled(s, Request(c)) && Reads(s)
    ensures Reads(Accept(s, c))
  {
    var base := Max(s.nextId, Mentioned(c));
    var r := Start(s, Message(c, Uuid(base)), Uuid(base + 1), Uuid(base + 2));
    StartReads(s, Message(c, Uuid(base)), Uuid(base + 1), Uuid(base + 2));
    assert Accept(s, c).runs == s.runs + [r];
    hide RunReads, CreatedAs, OfStream, Start, Uuid;
  }

  lemma OrderedIsStocked(s: System, b: Book, m: Message)
    requires m in Work(s) && m.command.RemoveInventory?
    requires Consistent(s, b)
    ensures OfStream(s.log, m.command.inventoryId) != []
  {
    hide BookOk, LogOk, RunsOk, DueOk, CompensationOwed, RegistryOk, WorkerOk, Chronicle, RunsFit, StreamsOk, Work;
    IssuedIfPending(Work(s), b, m);
    CreatedStream(s.log, s.inventories, s.nextId, m.command.inventoryId);
  }

  lemma TakeCommandKeepsReads(s: System, b: Book, i: nat)
    requires Enabled(s, TakeCommand(i)) && Reads(s)
    requires Consistent(s, b)
    ensures Reads(Step(s, TakeCommand(i)))
  {
    hide RunReads, CreatedAs, OfStream, Start, Consistent, Work;
    var m := s.commands[i];
    QueuedIsWork(s, m);
    if m.command.RemoveInventory? {
      OrderedIsStocked(s, b, m);
    }
    StartReads(s, m, UNSET, UNSET);
  }

  lemma QueuedIsWork(s: System, m: Message)
    requires m in s.commands
    ensures m in Work(s)
  {
  }

  /** A beginning of a created stream that is not empty is a stream of stock itself. */
  lemma BeginningIsStock(s: System, b: Book, id: Id, h: seq<Event>)
    requires Created(s.log, id) && h <= OfStream(s.log, id) && h != []
    requires Consistent(s, b)
    ensures StockStream(h) && CreatedAs(s.log, id, h[0].body.name, h[0].body.price)
  {
    hide Consistent;
    QuantityOfInventory(s, b, id);
    var all := OfStream(s.log, id);
    OfStreamMembers(s.log, id);
    assert forall i :: 0 <= i < |h| ==> h[i] == all[i];
    assert all[0] in all;
  }

  lemma SettleKeepsReads(s: System, b: Book, rejected: bool, s': System)
    requires Enabled(s, Settle(rejected)) && s' == Step(s, Settle(rejected)) && Reads(s)
    requires Consistent(s, b)
    ensures Reads(s')
  {
    hide Step, RunReads, CreatedAs, OfStream, Sagas.Register, Sagas.RollbackMessages, Consistent, SaveRow;
    SettleStep(s, rejected);
    SavedRow(s, b);
  }

  /** What the handler of an inventory event saves is the row of the beginning it read. */
  lemma SavedRow(s: System, b: Book)
    requires s.delivery.Some? && !s.delivery.value.settled && Reads(s)
    requires Consistent(s, b)
    ensures var rows := SaveRow(s.rows, s.delivery.value.event, s.delivery.value.snapshot);
            forall id :: id in rows ==> CreatedAs(s.log, id, rows[id].name, rows[id].price)
  {
    hide CreatedAs, OfStream, Consistent, SaveRow, StockStream;
    var e, h := s.delivery.value.event, s.delivery.value.snapshot;
    if e.body.InventoryCreated? || e.body.InventoryRemoved? {
      DeliveredCreated(s, b);
      if h == [] {
        EmptySavesNothing(s.rows, e);
      } else {
        BeginningIsStock(s, b, e.stream, h);
        StockSaves(s.rows, e, h);
      }
    } else {
      OtherSavesNothing(s.rows, e, h);
    }
  }

  lemma OtherSavesNothing(rows: map<Id, Row>, e: Event, h: seq<Event>)
    requires !e.body.InventoryCreated? && !e.body.InventoryRemoved?
    ensures SaveRow(rows, e, h) == rows
  {
  }

  lemma StockSaves(rows: map<Id, Row>, e: Event, h: seq<Event>)
    requires (e.body.InventoryCreated? || e.body.InventoryRemoved?) && StockStream(h)
    ensures SaveRow(rows, e, h)
         == rows[e.stream := Row(h[0].body.name, h[0].body.quantity - Inventories.Removed(h), h[0].body.price)]
  {
    hide ReplayFrom;
    RowOfStock(h);
  }

  lemma EmptySavesNothing(rows: map<Id, Row>, e: Event)
    ensures SaveRow(rows, e, []) == rows
  {
  }

  lemma DeliveredCreated(s: System, b: Book)
    requires s.delivery.Some? && !s.delivery.value.settled
    requires s.delivery.value.event.body.InventoryCreated? || s.delivery.value.event.body.InventoryRemoved?
    requires Consistent(s, b)
    ensures Created(s.log, s.delivery.value.event.stream)
  {
    hide BookOk, LogOk, StreamsOk, RunsOk, WorkOk, CompensationOwed, RegistryOk, WorkerOk, Chronicle, RunsFit, Due, Created;
    DeliveredIsDue(s, b);
    RemovedWasCreated(s.log, s.delivery.value.event);
  }

  lemma FinishKeepsReads(s: System, l: Label, s': System)
    requires l.Finish? || l.FinishCommand?
    requires Enabled(s, l) && s' == Step(s, l) && Reads(s)
    ensures Reads(s')
  {
    hide Reads, Decide, Sagas.RollbackMessages;
    if l.Finish? {
      RemoveAtMembers(s.runs, l.run);
    }
    AppendReads(s, s'.log[|s.log|..], s');
  }

  lemma OthersKeepReads(s: System, l: Label, s': System)
    requires l.TakeEvent? || l.PublishNext? || l.Acknowledge?
    requires Enabled(s, l) && s' == Step(s, l) && Reads(s)
    ensures Reads(s')
  {
    hide RunReads, CreatedAs;
  }

  lemma StepKeepsReads(s: System, b: Book, l: Label, s': System)
    requires Enabled(s, l) && s' == Step(s, l) && Reads(s)
    requires Consistent(s, b)
    ensures Reads(s')
  {
    hide Reads, Consistent, Decide, Conclude, SettleEvent, Accept, Start;
    match l
    case Request(c) => RequestKeepsReads(s, c);
    case TakeCommand(i) => TakeCommandKeepsReads(s, b, i);
    case Settle(rejected) => SettleKeepsReads(s, b, rejected, s');
    case Finish(_, _) => FinishKeepsReads(s, l, s');
    case FinishCommand => FinishKeepsReads(s, l, s');
    case _ => OthersKeepReads(s, l, s');
  }

  lemma {:induction false} ReachableReads(ls: seq<Label>)
    ensures Reads(After(ls)) && Consistent(After(ls), BookAfter(ls))
  {
    hide Reads, Consistent, Step, Track, Enabled, Inv, History;
    ReachableHistory(ls);
    ConsistentIs(After(ls), BookAfter(ls));
    if ls == [] {
      InitialReads();
    } else {
      var front, l := ls[..|ls| - 1], ls[|ls| - 1];
      ReachableReads(front);
      if Enabled(After(front), l) {
        StepKeepsReads(After(front), BookAfter(front), l, After(ls));
      }
    }
  }

  lemma InitialReads()
    ensures Reads(INIT)
  {
  }
}
