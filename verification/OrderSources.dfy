/** Nothing is stored that nobody asked for: every event carries the data of the request, or of the
    order, that it comes from. */
module OrderSources {
  import opened Wrappers
  import opened Events
  import opened Aggregates
  import opened Messages
  import opened Decisions
  import opened OrderSystem
  import opened OrderInvariant
  import opened OrderPreservation
  import opened OrderRuns
  import opened OrderHistory
  import opened LiveOrders
  import opened OrderAtomicity
  import opened OrderReads
  import opened OrderOutcomes
  import Accounts
  import Sagas

  /** The order of a correlation, as it was stored. */
  ghost predicate Ordered(log: seq<Event>, c: Id, o: Order) {
    exists e :: e in log && e.corr == c && e.stream == o.accountId && e.body == OrderCreated(o)
  }

  ghost predicate PricedAt(log: seq<Event>, id: Id, price: int) {
    exists e :: e in log && e.stream == id && e.body.InventoryCreated? && e.body.price == price
  }

  /** Where an event comes from. */
  ghost predicate Sourced(e: Event, ls: seq<Label>, log: seq<Event>) {
    match e.body
    case AccountCreated(name, balance) => Request(CreateAccount(name, balance)) in ls
    case FundsDeposited(funds) => Request(DepositFunds(e.stream, funds)) in ls
    case FundsWithdrawn(funds) =>
      Request(WithdrawFunds(e.stream, funds)) in ls
      || exists o :: Ordered(log, e.corr, o) && e.stream == o.accountId && funds == -o.cost
    case FundsWithdrawalFailed(funds) =>
      Request(WithdrawFunds(e.stream, funds)) in ls
      || exists id, quantity :: Request(CreateOrder(e.stream, id, quantity)) in ls
    case InventoryCreated(name, quantity, price) => Request(CreateInventory(name, quantity, price)) in ls
    case InventoryCreatedFailed(name) => exists quantity, price :: Request(CreateInventory(name, quantity, price)) in ls
    case OrderCreated(o) =>
      && e.stream == o.accountId && Request(CreateOrder(o.accountId, o.inventoryId, o.quantity)) in ls
      && exists price :: PricedAt(log, o.inventoryId, price) && o.cost == price * o.quantity
    case InventoryRemoved(quantity) =>
      exists o :: Ordered(log, e.corr, o) && e.stream == o.inventoryId && quantity == o.quantity
    case RollbackFundsWithdrawn(funds) =>
      exists o :: Ordered(log, e.corr, o) && e.stream == o.accountId && funds == -o.cost
    case RollbackOrderCreated(orderId) =>
      exists o :: Ordered(log, e.corr, o) && e.stream == o.accountId && orderId == o.id
  }

  lemma OrderedGrows(log: seq<Event>, es: seq<Event>, c: Id, o: Order)
    requires Ordered(log, c, o)
    ensures Ordered(log + es, c, o)
  {
    var e :| e in log && e.corr == c && e.stream == o.accountId && e.body == OrderCreated(o);
    assert e in log + es;
  }

  lemma PricedGrows(log: seq<Event>, es: seq<Event>, id: Id, price: int)
    requires PricedAt(log, id, price)
    ensures PricedAt(log + es, id, price)
  {
    var e :| e in log && e.stream == id && e.body.InventoryCreated? && e.body.price == price;
    assert e in log + es;
  }

  lemma SourcedGrows(e: Event, ls: seq<Label>, log: seq<Event>, l: Label, es: seq<Event>)
    requires Sourced(e, ls, log)
    ensures Sourced(e, ls + [l], log + es)
  {
    hide Ordered, PricedAt;
    assert forall x :: x in ls ==> x in ls + [l];
    match e.body
    case FundsWithdrawn(funds) =>
      if Request(WithdrawFunds(e.stream, funds)) !in ls {
        var o :| Ordered(log, e.corr, o) && e.stream == o.accountId && funds == -o.cost;
        OrderedGrows(log, es, e.corr, o);
      }
    case FundsWithdrawalFailed(funds) =>
      if Request(WithdrawFunds(e.stream, funds)) !in ls {
        var id, quantity :| Request(CreateOrder(e.stream, id, quantity)) in ls;
        assert Request(CreateOrder(e.stream, id, quantity)) in ls + [l];
      }
    case InventoryCreatedFailed(name) =>
      var quantity, price :| Request(CreateInventory(name, quantity, price)) in ls;
      assert Request(CreateInventory(name, quantity, price)) in ls + [l];
    case OrderCreated(o) =>
      var price :| PricedAt(log, o.inventoryId, price) && o.cost == price * o.quantity;
      PricedGrows(log, es, o.inventoryId, price);
    case InventoryRemoved(quantity) =>
      var o :| Ordered(log, e.corr, o) && e.stream == o.inventoryId && quantity == o.quantity;
      OrderedGrows(log, es, e.corr, o);
    case RollbackFundsWithdrawn(funds) =>
      var o :| Ordered(log, e.corr, o) && e.stream == o.accountId && funds == -o.cost;
      OrderedGrows(log, es, e.corr, o);
    case RollbackOrderCreated(orderId) =>
      var o :| Ordered(log, e.corr, o) && e.stream == o.accountId && orderId == o.id;
      OrderedGrows(log, es, e.corr, o);
    case _ =>
  }

  /** Every run from outside was requested. */
  lemma {:induction false} RunsAreRequested(ls: seq<Label>)
    ensures forall r :: r in After(ls).runs ==> Request(r.message.command) in ls
  {
    hide Enabled;
    if ls != [] {
      var front, l := ls[..|ls| - 1], ls[|ls| - 1];
      assert ls == front + [l];
      RunsAreRequested(front);
      if Enabled(After(front), l) {
        NewRuns(After(front), l);
      }
    }
  }

  lemma NewRuns(s: System, l: Label)
    requires Enabled(s, l)
    ensures forall r :: r in Step(s, l).runs ==> r in s.runs || l == Request(r.message.command)
  {
    hide Decide, Sagas.RollbackMessages, Sagas.ProcessAll;
    if l.Finish? {
      RemoveAtMembers(s.runs, l.run);
    }
  }

  // ---- What a step stores ----

  /** What a run of the book's orders concerns was stored as their OrderCreated. */
  lemma BookIsOrdered(ls: seq<Label>, s: System, b: Book, c: Id)
    requires s == After(ls) && b == BookAfter(ls) && c in b
    ensures Ordered(s.log, c, b[c].order)
  {
    hide After, BookAfter, Inv, History;
    EntriesAreOrders(ls, s, b, c);
    ReachableInv(ls);
    PlacedStream(s, b, c);
  }

  lemma PlacedStream(s: System, b: Book, c: Id)
    requires c in b
    requires Inv(s, b)
    ensures b[c].placed.stream == b[c].order.accountId
  {
    hide LogOk, StreamsOk, RunsOk, DueOk, WorkOk, CompensationOwed, RegistryOk, WorkerOk;
    OrderAccountIsProper(b, s.inventories, s.nextId, c);
  }

  lemma RunSources(ls: seq<Label>, s: System, i: nat, nameTaken: bool, e: Event)
    requires s == After(ls) && i < |s.runs|
    requires var log := Next(s, Finish(i, nameTaken)).log; s.log <= log && e in log[|s.log|..]
    ensures Sourced(e, ls, Next(s, Finish(i, nameTaken)).log)
  {
    hide After, Next, Decide, OfStream, Accounts.BalanceFrom, Inv, CreatedAs, PricedAt, Ordered, RunReads;
    RunsAreRequested(ls);
    var r, log := s.runs[i], Next(s, Finish(i, nameTaken)).log;
    assert r in s.runs;
    match r.message.command
    case CreateAccount(name, balance) => OpeningIsStored(ls, s, i, nameTaken, name, balance);
    case DepositFunds(accountId, funds) => DepositIsStored(ls, s, i, nameTaken, accountId, funds);
    case WithdrawFunds(accountId, funds) => WithdrawalIsStored(ls, s, i, nameTaken, accountId, funds);
    case CreateInventory(name, quantity, price) => InventoryIsStored(ls, s, i, nameTaken, name, quantity, price);
    case CreateOrder(accountId, inventoryId, quantity) => OrderSources(ls, s, i, nameTaken, e);
    case _ => PublicRun(ls, s, i);
  }

  lemma PublicRun(ls: seq<Label>, s: System, i: nat)
    requires s == After(ls) && i < |s.runs|
    ensures !s.runs[i].message.command.RemoveInventory? && !s.runs[i].message.command.RollbackAccount?
  {
    hide After, BookAfter, BookOk, LogOk, StreamsOk, RunsOk, DueOk, WorkOk, CompensationOwed, RegistryOk, WorkerOk;
    ReachableInv(ls);
    RunIsExternal(s, BookAfter(ls), i);
  }

  lemma OrderSources(ls: seq<Label>, s: System, i: nat, nameTaken: bool, e: Event)
    requires s == After(ls) && i < |s.runs| && s.runs[i].message.command.CreateOrder?
    requires var log := Next(s, Finish(i, nameTaken)).log; s.log <= log && e in log[|s.log|..]
    ensures Sourced(e, ls, Next(s, Finish(i, nameTaken)).log)
  {
    hide After, Next, Decide, OfStream, Accounts.BalanceFrom;
    RunsAreRequested(ls);
    var r, log := s.runs[i], Next(s, Finish(i, nameTaken)).log;
    assert r in s.runs;
    var c := r.message.command;
    assert Request(CreateOrder(c.accountId, c.inventoryId, c.quantity)) in ls;
    OrderIsStored(ls, s, i, nameTaken, c.accountId, c.inventoryId, c.quantity);
    if r.row.Some? {
      PriceWasRead(ls, s, r);
      var es := log[|s.log|..];
      assert log == s.log + es;
      PricedGrows(s.log, es, c.inventoryId, r.row.value.price);
      if |es| == 2 {
        assert es[0] in log && es[0].body.OrderCreated?;
        assert Ordered(log, r.message.corr, es[0].body.order);
      }
    }
  }

  lemma PriceWasRead(ls: seq<Label>, s: System, r: Run)
    requires s == After(ls) && r in s.runs && r.message.command.CreateOrder? && r.row.Some?
    ensures PricedAt(s.log, r.message.command.inventoryId, r.row.value.price)
  {
    hide After, BookAfter, Consistent;
    ReachableReads(ls);
    assert RunReads(r, s.log);
    var e :| e in s.log && e.stream == r.message.command.inventoryId && e.body.InventoryCreated?
          && e.body.name == r.row.value.name && e.body.price == r.row.value.price;
  }

  lemma WorkerSources(ls: seq<Label>, s: System, e: Event)
    requires s == After(ls) && s.worker.Some?
    requires var log := Next(s, FinishCommand).log; s.log <= log && e in log[|s.log|..]
    ensures Sourced(e, ls, Next(s, FinishCommand).log)
  {
    hide After, BookAfter, BookOk, LogOk, StreamsOk, RunsOk, DueOk, WorkOk, CompensationOwed, RegistryOk, WorkerOk,
      Decide, Step, OfStream, Ordered, StockStream, Work, RolledBack, Sagas.RollbackMessages;
    var b, log := BookAfter(ls), Next(s, FinishCommand).log;
    ReachableInv(ls);
    WorkerIsPublished(s, b);
    WorkerIsPending(s);
    var c := s.worker.value.message.command;
    if c.RemoveInventory? {
      RemovalIsStored(ls, s, b, c.inventoryId, c.orderId, c.quantity);
      var corr := s.worker.value.message.corr;
      IssuedIfPending(Work(s), b, s.worker.value.message);
      BookIsOrdered(ls, s, b, corr);
      OrderedGrows(s.log, log[|s.log|..], corr, b[corr].order);
      assert log == s.log + log[|s.log|..];
    } else {
      var corr := c.correlationId;
      WorkerRollback(s, b);
      FinishCommandStep(s);
      BookIsOrdered(ls, s, b, corr);
      OrderedGrows(s.log, log[|s.log|..], corr, b[corr].order);
      assert log == s.log + log[|s.log|..];
    }
  }

  /** Only the end of a run or of a command stores anything. */
  lemma StoringSteps(s: System, l: Label)
    ensures s.log <= Next(s, l).log
    ensures Next(s, l).log != s.log ==> Enabled(s, l) && (l.Finish? || l.FinishCommand?)
  {
    hide Decide, Sagas.RollbackMessages, Sagas.ProcessAll, Start, Conclude;
    match l
    case Finish(i, nameTaken) => ConcludeGrows(s, l);
    case FinishCommand => ConcludeGrows(s, l);
    case _ =>
  }

  lemma ConcludeGrows(s: System, l: Label)
    requires l.Finish? || l.FinishCommand?
    ensures s.log <= Next(s, l).log
    ensures !Enabled(s, l) ==> Next(s, l) == s
  {
    hide Decide, Sagas.RollbackMessages;
  }

  /** In every reachable state every stored event comes from a request of the run that carries its data,
      or from a stored order: openings, deposits and direct withdrawals from their requests, an inventory
      with the name, quantity and price that were asked for; an order from a request for that account,
      inventory and quantity, at the price the inventory was created with; payments, removals and
      compensations from the order of their correlation. */
  lemma {:induction false} EveryEventIsSourced(ls: seq<Label>, s: System, e: Event)
    requires s == After(ls) && e in s.log
    ensures Sourced(e, ls, s.log)
  {
    hide Sourced, Next;
    if ls != [] {
      var front, l := ls[..|ls| - 1], ls[|ls| - 1];
      var before := After(front);
      assert ls == front + [l];
      StoringSteps(before, l);
      var es := s.log[|before.log|..];
      assert s.log == before.log + es;
      if e in before.log {
        EveryEventIsSourced(front, before, e);
        SourcedGrows(e, front, before.log, l, es);
      } else {
        assert e in es;
        NewEventIsSourced(front, before, l, e);
        SourcedGrows(e, front, s.log, l, []);
        assert s.log + [] == s.log;
      }
    }
  }

  lemma NewEventIsSourced(ls: seq<Label>, s: System, l: Label, e: Event)
    requires s == After(ls) && Enabled(s, l) && (l.Finish? || l.FinishCommand?)
    requires s.log <= Next(s, l).log && e in Next(s, l).log[|s.log|..]
    ensures Sourced(e, ls, Next(s, l).log)
  {
    hide Sourced, Next, After;
    match l
    case Finish(i, nameTaken) => RunSources(ls, s, i, nameTaken, e);
    case FinishCommand => WorkerSources(ls, s, e);
    case _ =>
  }
}
