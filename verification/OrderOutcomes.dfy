/** What becomes of each command, from request to store, in every reachable state: which events it
    appends, with which data, and exactly when. */
module OrderOutcomes {
  import opened Wrappers
  import opened Events
  import opened Aggregates
  import opened Messages
  import opened Decisions
  import opened OrderSystem
  import opened OrderInvariant
  import opened OrderPreservation
  import opened OrderRuns
  import opened OrderHistory
  import opened LiveOrders
  import opened OrderAtomicity
  import opened OrderLedger
  import opened OrderReads
  import Accounts
  import Inventories
  import Sagas

  // ---- A request starts a run ----

  /** A public request is accepted whenever its account is not the id of an inventory, and for an order
      colon free: it starts one run, with a correlation that nothing carries yet, which has read the
      stream it is about as it is now. */
  lemma RequestStarts(ls: seq<Label>, s: System, c: Command)
    requires s == After(ls) && !c.RemoveInventory? && !c.RollbackAccount?
    requires c.DepositFunds? || c.WithdrawFunds? || c.CreateOrder? ==> c.accountId !in s.inventories
    requires c.CreateOrder? ==> ':' !in c.accountId
    ensures var s' := Next(s, Request(c));
            && s'.log == s.log && s'.rows == s.rows && s'.sets == s.sets
            && s'.events == s.events && s'.commands == s.commands
            && |s'.runs| == |s.runs| + 1 && s'.runs[..|s.runs|] == s.runs
            && var r := s'.runs[|s.runs|];
               && r.message.command == c && r.message.corr != UNSET
               && (forall e :: e in s.log ==> e.corr != r.message.corr)
               && (c.DepositFunds? || c.WithdrawFunds? || c.CreateOrder? ==> r.snapshot == OfStream(s.log, c.accountId))
               && (c.CreateAccount? || c.CreateInventory? ==> r.snapshot == [] && forall e :: e in s.log ==> e.stream != r.streamId)
               && (c.CreateInventory? ==> s'.inventories == s.inventories + {r.streamId})
               && (c.CreateOrder? ==> r.row == if c.inventoryId in s.rows then Some(s.rows[c.inventoryId]) else None)
  {
    hide After, BookAfter, Inv, Uuid, OfStream, Accept;
    ReachableInv(ls);
    var base := Max(s.nextId, Mentioned(c));
    UuidLength(base);
    LongerIsNew(s, base, BookAfter(ls));
    OfStreamNoneLeft(s.log, Uuid(base + 1));
    AcceptGives(s, c, base);
  }

  lemma AcceptGives(s: System, c: Command, base: nat)
    requires base == Max(s.nextId, Mentioned(c))
    ensures var s' := Accept(s, c);
            && s'.log == s.log && s'.rows == s.rows && s'.sets == s.sets
            && s'.events == s.events && s'.commands == s.commands
            && s'.runs == s.runs + [Start(s, Message(c, Uuid(base)), Uuid(base + 1), Uuid(base + 2))]
            && (c.CreateInventory? ==> s'.inventories == s.inventories + {Uuid(base + 1)})
  {
  }

  lemma UuidLength(n: nat)
    ensures |Uuid(n)| == n + 1 && Uuid(n) != UNSET
  {
  }

  lemma LongerIsNew(s: System, base: nat, b: Book)
    requires s.nextId <= base
    requires Inv(s, b)
    ensures forall e :: e in s.log ==> e.corr != Uuid(base) && e.stream != Uuid(base + 1)
  {
    hide BookOk, LogOk, RunsOk, DueOk, WorkOk, CompensationOwed, RegistryOk, WorkerOk, OfStream;
  }

  lemma OfStreamNoneLeft(log: seq<Event>, id: Id)
    requires forall e :: e in log ==> e.stream != id
    ensures OfStream(log, id) == []
  {
    OfStreamNone(log, id);
  }

  // ---- The end of a run ----

  /** The end of a run does nothing but append what was decided. */
  lemma FinishAppends(ls: seq<Label>, s: System, i: nat, nameTaken: bool, es: seq<Event>)
    requires s == After(ls) && i < |s.runs|
    requires es == Outcome(Decide(s.runs[i], nameTaken, s.nextId))
    ensures Next(s, Finish(i, nameTaken))
         == s.(runs := RemoveAt(s.runs, i), log := s.log + es, events := s.events + es, nextId := s.nextId + |es|)
  {
    hide After, BookAfter, BookOk, LogOk, StreamsOk, RunsOk, DueOk, WorkOk, CompensationOwed, RegistryOk, WorkerOk, Decide, Step;
    ReachableInv(ls);
    NoRollbackForUnused(s, BookAfter(ls), i);
    FinishStep(s, i, nameTaken);
  }

  lemma {:induction false} BeginningReplays<S>(t: Handlers<S>, h: seq<Event>, p: seq<Event>)
    requires Replay(t, h).Ok? && p <= h
    ensures Replay(t, p).Ok?
  {
    assert h == p + h[|p|..];
    ReplayAppend(t, t.initial, p, h[|p|..]);
  }

  /** What a run on an account has read always replays. */
  lemma AccountRunReplays(ls: seq<Label>, s: System, i: nat)
    requires s == After(ls) && i < |s.runs| && !s.runs[i].message.command.CreateInventory?
    ensures Replay(Accounts.HANDLERS, s.runs[i].snapshot).Ok?
    ensures s.runs[i].snapshot <= OfStream(s.log, Target(s.runs[i].message.command, s.runs[i].streamId))
    ensures Target(s.runs[i].message.command, s.runs[i].streamId) !in s.inventories
  {
    hide After, BookAfter, BookOk, LogOk, DueOk, WorkOk, CompensationOwed, RegistryOk, WorkerOk, History, ReplayFrom, OfStream;
    ReachableReads(ls);
    var r := s.runs[i];
    assert r in s.runs;
    assert RunOk(r, s.log, BookAfter(ls), s.inventories, s.nextId);
    assert RunReads(r, s.log);
    BeginningReplays(Accounts.HANDLERS, OfStream(s.log, Target(r.message.command, r.streamId)), r.snapshot);
  }

  lemma StreamAppends(log: seq<Event>, es: seq<Event>, id: Id)
    requires forall e :: e in es ==> e.stream == id
    ensures OfStream(log + es, id) == OfStream(log, id) + es
  {
    FilterAppend(log, es, (e: Event) => e.stream == id);
    OfStreamAll(es, id);
  }

  /** Every deposit is stored, and an open account has it at once. */
  lemma DepositIsStored(ls: seq<Label>, s: System, i: nat, nameTaken: bool, accountId: Id, funds: int)
    requires s == After(ls) && i < |s.runs| && s.runs[i].message.command == DepositFunds(accountId, funds)
    ensures var s' := Next(s, Finish(i, nameTaken));
            && s'.log == s.log + [Event(s.nextId, accountId, s.runs[i].message.corr, FundsDeposited(funds))]
            && s'.events == s.events + s'.log[|s.log|..] && s'.commands == s.commands && s'.runs == RemoveAt(s.runs, i)
            && var before, after := Accounts.Balance(OfStream(s.log, accountId)), Accounts.Balance(OfStream(s'.log, accountId));
               after == if before.Some? then Some(before.value + funds) else None
  {
    hide After, ReplayFrom, OfStream, Accounts.BalanceFrom;
    var r := s.runs[i];
    var e := Event(s.nextId, accountId, r.message.corr, FundsDeposited(funds));
    AccountRunReplays(ls, s, i);
    DepositCommits(r.snapshot, accountId, funds, r.message.corr, s.nextId);
    FinishAppends(ls, s, i, nameTaken, [e]);
    StreamAppends(s.log, [e], accountId);
    Accounts.FoldsPush(None, [], OfStream(s.log, accountId), e);
  }

  /** A withdrawal, whose funds are negative, is stored exactly when the balance it read is undefined or
      covers it; otherwise its failure is. */
  lemma WithdrawalIsStored(ls: seq<Label>, s: System, i: nat, nameTaken: bool, accountId: Id, funds: int)
    requires s == After(ls) && i < |s.runs| && s.runs[i].message.command == WithdrawFunds(accountId, funds)
    ensures var s', read := Next(s, Finish(i, nameTaken)), Accounts.Balance(s.runs[i].snapshot);
            && s'.log == s.log + [
                 if read.None? || read.value + funds >= 0
                 then Event(s.nextId, accountId, s.runs[i].message.corr, FundsWithdrawn(funds))
                 else Event(s.nextId, accountId, UNSET, FundsWithdrawalFailed(funds))]
            && s'.events == s.events + s'.log[|s.log|..] && s'.commands == s.commands && s'.runs == RemoveAt(s.runs, i)
            && var before, after := Accounts.Balance(OfStream(s.log, accountId)), Accounts.Balance(OfStream(s'.log, accountId));
               after == if before.Some? && (read.None? || read.value + funds >= 0) then Some(before.value + funds) else before
  {
    hide After, ReplayFrom, OfStream, Accounts.BalanceFrom;
    var r := s.runs[i];
    var read := Accounts.Balance(r.snapshot);
    AccountRunReplays(ls, s, i);
    WithdrawalCommits(r.snapshot, accountId, funds, r.message.corr, s.nextId);
    var e := if read.None? || read.value + funds >= 0
             then Event(s.nextId, accountId, r.message.corr, FundsWithdrawn(funds))
             else Event(s.nextId, accountId, UNSET, FundsWithdrawalFailed(funds));
    FinishAppends(ls, s, i, nameTaken, [e]);
    StreamAppends(s.log, [e], accountId);
    Accounts.FoldsPush(None, [], OfStream(s.log, accountId), e);
  }

  /** Every opening is stored, with its name and its balance, and is the balance. */
  lemma OpeningIsStored(ls: seq<Label>, s: System, i: nat, nameTaken: bool, name: string, balance: int)
    requires s == After(ls) && i < |s.runs| && s.runs[i].message.command == CreateAccount(name, balance)
    ensures var s', id := Next(s, Finish(i, nameTaken)), s.runs[i].streamId;
            && s'.log == s.log + [Event(s.nextId, id, s.runs[i].message.corr, AccountCreated(name, balance))]
            && s'.events == s.events + s'.log[|s.log|..] && s'.commands == s.commands && s'.runs == RemoveAt(s.runs, i)
            && Accounts.Balance(OfStream(s'.log, id)) == Some(balance)
  {
    hide After, ReplayFrom, OfStream, Accounts.BalanceFrom;
    var r := s.runs[i];
    var e := Event(s.nextId, r.streamId, r.message.corr, AccountCreated(name, balance));
    AccountRunReplays(ls, s, i);
    OpeningCommits(r.snapshot, r.streamId, name, balance, r.message.corr, s.nextId);
    FinishAppends(ls, s, i, nameTaken, [e]);
    StreamAppends(s.log, [e], r.streamId);
    Accounts.FoldsPush(None, [], OfStream(s.log, r.streamId), e);
  }

  /** An inventory is stored, with its name, its quantity and its price, exactly when its name is free. */
  lemma InventoryIsStored(ls: seq<Label>, s: System, i: nat, nameTaken: bool, name: string, quantity: int, price: int)
    requires s == After(ls) && i < |s.runs| && s.runs[i].message.command == CreateInventory(name, quantity, price)
    ensures var s', id := Next(s, Finish(i, nameTaken)), s.runs[i].streamId;
            && s'.log == s.log + [
                 if nameTaken then Event(s.nextId, id, UNSET, InventoryCreatedFailed(name))
                 else Event(s.nextId, id, s.runs[i].message.corr, InventoryCreated(name, quantity, price))]
            && s'.events == s.events + s'.log[|s.log|..] && s'.commands == s.commands && s'.runs == RemoveAt(s.runs, i)
            && OfStream(s.log, id) == []
  {
    hide After, ReplayFrom, OfStream;
    var r := s.runs[i];
    NothingRead(ls, s, i);
    NothingReplayed(Inventories.HANDLERS, Inventories.HANDLERS.initial, []);
    InventoryCommits([], r.streamId, name, quantity, price, nameTaken, r.message.corr, s.nextId);
    var e := if nameTaken then Event(s.nextId, r.streamId, UNSET, InventoryCreatedFailed(name))
             else Event(s.nextId, r.streamId, r.message.corr, InventoryCreated(name, quantity, price));
    FinishAppends(ls, s, i, nameTaken, [e]);
  }

  lemma NothingRead(ls: seq<Label>, s: System, i: nat)
    requires s == After(ls) && i < |s.runs| && s.runs[i].message.command.CreateInventory?
    ensures s.runs[i].snapshot == [] && OfStream(s.log, s.runs[i].streamId) == []
  {
    hide After, BookAfter, Inv, Chronicle, Created, CreatedAs;
    ReachableReads(ls);
    var r := s.runs[i];
    assert r in s.runs;
    assert RunReads(r, s.log) && RunFits(r, s.log);
    OfStreamNone(s.log, r.streamId);
  }

  /** An order is stored together with its payment exactly when the row was there and the balance read is
      undefined or covers the cost, which is the price in the row times the quantity; for want of funds
      the failure is stored, for want of the row nothing. */
  lemma OrderIsStored(ls: seq<Label>, s: System, i: nat, nameTaken: bool, accountId: Id, inventoryId: Id, quantity: int)
    requires s == After(ls) && i < |s.runs| && s.runs[i].message.command == CreateOrder(accountId, inventoryId, quantity)
    ensures var s', r := Next(s, Finish(i, nameTaken)), s.runs[i];
            && s'.events == s.events + s'.log[|s.log|..] && s'.commands == s.commands && s'.runs == RemoveAt(s.runs, i)
            && if r.row.None? then s'.log == s.log
               else
                 var read, cost := Accounts.Balance(r.snapshot), r.row.value.price * quantity;
                 s'.log == s.log +
                   if read.None? || read.value >= cost then
                     [Event(s.nextId, accountId, r.message.corr,
                            OrderCreated(Order(r.orderId, accountId, inventoryId, cost, quantity))),
                      Event(s.nextId + 1, accountId, r.message.corr, FundsWithdrawn(-cost))]
                   else [Event(s.nextId, accountId, UNSET, FundsWithdrawalFailed(-cost))]
  {
    hide After, ReplayFrom, OfStream, Accounts.BalanceFrom;
    var r := s.runs[i];
    AccountRunReplays(ls, s, i);
    OrderCommits(r.snapshot, r.row, accountId, inventoryId, quantity, r.orderId, r.message.corr, s.nextId);
    var es := Outcome(Decide(r, nameTaken, s.nextId));
    FinishAppends(ls, s, i, nameTaken, es);
    assert s.log + [] == s.log && (s.log + es)[|s.log|..] == es;
  }

  /** The worker removes from an inventory exactly when what it read of it, opening less removals, is
      enough; otherwise nothing is stored and the one registered rollback is sent. */
  lemma RemovalIsStored(ls: seq<Label>, s: System, b: Book, inventoryId: Id, orderId: Id, quantity: int)
    requires s == After(ls) && b == BookAfter(ls) && s.worker.Some?
    requires s.worker.value.message.command == RemoveInventory(inventoryId, orderId, quantity)
    ensures var s', h, c := Next(s, FinishCommand), s.worker.value.snapshot, s.worker.value.message.corr;
            && StockStream(h) && h <= OfStream(s.log, inventoryId) && c in b && s'.worker.None?
            && s'.events == s.events + s'.log[|s.log|..]
            && if h[0].body.quantity - Inventories.Removed(h) >= quantity then
                 s'.log == s.log + [Event(s.nextId, inventoryId, c, InventoryRemoved(quantity))] && s'.commands == s.commands
               else
                 && s'.log == s.log
                 && s'.commands == s.commands + [Message(RollbackAccount(b[c].order.accountId, c), UNSET)]
  {
    hide After, BookAfter, ReplayFrom, OfStream, Step, Sagas.RollbackMessages;
    var r := s.worker.value;
    RemovalRead(ls, s, b);
    RemovalCommits(r.snapshot, inventoryId, quantity, r.message.corr, s.nextId);
    FinishCommandStep(s);
    CompensationIsRegisteredFirst(ls, s, b, r.message);
    assert s.log + [] == s.log && s.commands + [] == s.commands && s.events + [] == s.events;
  }

  lemma RemovalRead(ls: seq<Label>, s: System, b: Book)
    requires s == After(ls) && b == BookAfter(ls) && s.worker.Some? && s.worker.value.message.command.RemoveInventory?
    ensures var h, id := s.worker.value.snapshot, s.worker.value.message.command.inventoryId;
            StockStream(h) && h <= OfStream(s.log, id)
  {
    hide After, BookAfter, BookOk, LogOk, StreamsOk, RunsOk, DueOk, CompensationOwed, RegistryOk, WorkerOk, Chronicle, RunsFit,
      CreatedAs, OfStream, StockStream, Created;
    ReachableReads(ls);
    WorkerIsPending(s);
    IssuedIfPending(Work(s), b, s.worker.value.message);
    BeginningIsStock(s, b, s.worker.value.message.command.inventoryId, s.worker.value.snapshot);
  }

  /** The worker rolls an order back with the refund first, unless it is rolled back already: then nothing
      is stored, and a command that carries the correlation of the order sends the rollback once more. */
  lemma RollbackIsStored(ls: seq<Label>, s: System, b: Book, stream: Id, c: Id)
    requires s == After(ls) && b == BookAfter(ls) && s.worker.Some?
    requires s.worker.value.message.command == RollbackAccount(stream, c)
    ensures c in b && stream == b[c].order.accountId
    ensures var s', o, corr := Next(s, FinishCommand), b[c].order, s.worker.value.message.corr;
            && (corr == UNSET || corr == c) && s'.worker.None? && s'.events == s.events + s'.log[|s.log|..]
            && if |AccountPart(s.log, c)| == 2 then
                 && s'.log == s.log + [Event(s.nextId, stream, c, RollbackFundsWithdrawn(-o.cost)),
                                       Event(s.nextId + 1, stream, c, RollbackOrderCreated(o.id))]
                 && s'.commands == s.commands
               else
                 && |AccountPart(s.log, c)| == 4 && s'.log == s.log
                 && s'.commands == if corr == UNSET then s.commands else s.commands + [Message(RollbackAccount(stream, c), UNSET)]
  {
    hide After, BookAfter, BookOk, LogOk, StreamsOk, RunsOk, DueOk, WorkOk, CompensationOwed, RegistryOk, WorkerOk,
      Decide, Step, OfStream, Work, Sagas.RollbackMessages, AccountPart;
    ReachableInv(ls);
    WorkerIsPending(s);
    RollbackIfPending(Work(s), b, s.worker.value.message);
    WorkerRollback(s, b);
    FinishCommandStep(s);
    PartBeforeUndo(s.log, b, c);
    OrderAccountIsProper(b, s.inventories, s.nextId, c);
    RegistryOfOrder(s.sets, b, c);
    UnsetIsNoOrder(b, s.inventories, s.nextId);
    RegistryOfUnset(s.sets, b);
    assert s.log + [] == s.log && s.commands + [] == s.commands && s.events + [] == s.events;
  }

  /** An accepted delivery of an order issues its RemoveInventory, under its correlation; a rejected one
      issues nothing. */
  lemma PlacementIsIssued(ls: seq<Label>, s: System, rejected: bool, o: Order)
    requires s == After(ls) && s.delivery.Some? && !s.delivery.value.settled
    requires s.delivery.value.event.body == OrderCreated(o)
    ensures var s', c := Next(s, Settle(rejected)), s.delivery.value.event.corr;
            && s'.delivery.Some? && s'.delivery.value.settled && s'.log == s.log && s'.commands == s.commands && s'.rows == s.rows
            && s'.delivery.value.outbox
               == if rejected then [] else [Message(RemoveInventory(o.inventoryId, o.id, o.quantity), c)]
  {
    hide After, BookAfter, BookOk, LogOk, StreamsOk, RunsOk, WorkOk, CompensationOwed, WorkerOk, RegistryOk, Due, Step,
      Sagas.Register, Sagas.RollbackMessages;
    ReachableInv(ls);
    var e, b := s.delivery.value.event, BookAfter(ls);
    DeliveredIsDue(s, b);
    PlacedIfDue(Due(s), s.log, b, e);
    OrderAccountIsProper(b, s.inventories, s.nextId, e.corr);
    RegistryOfOrder(s.sets, b, e.corr);
    CorrelateNone(e.corr);
    CorrelateOne(Message(RemoveInventory(o.inventoryId, o.id, o.quantity), UNSET), e.corr);
    SettleStep(s, rejected);
  }

  /** A rejected delivery of any other event that has a handler sends the rollback of its order, under its
      correlation, exactly when that was registered; the three kinds without a handler are never rejected. */
  lemma RejectionIsRolledBack(ls: seq<Label>, s: System, b: Book)
    requires s == After(ls) && b == BookAfter(ls) && s.delivery.Some? && !s.delivery.value.settled
    requires !s.delivery.value.event.body.OrderCreated?
    ensures var e, s' := s.delivery.value.event, Next(s, Settle(true));
            && s'.delivery.Some? && s'.delivery.value.settled && s'.sets == s.sets && s'.log == s.log && s'.commands == s.commands
            && var unhandled := e.body.RollbackFundsWithdrawn? || e.body.FundsWithdrawalFailed? || e.body.InventoryCreatedFailed?;
               && s'.rows == s.rows
               && s'.delivery.value.outbox
                  == if !unhandled && e.corr in b && (b[e.corr].phase.Issued? || b[e.corr].phase.Removed? || b[e.corr].phase.Failed?)
                     then [Message(RollbackAccount(b[e.corr].order.accountId, e.corr), e.corr)] else []
  {
    hide After, BookAfter, BookOk, LogOk, StreamsOk, RunsOk, DueOk, WorkOk, CompensationOwed, WorkerOk, RegistryOk, Step,
      Sagas.Register, Sagas.RollbackMessages;
    ReachableInv(ls);
    var e := s.delivery.value.event;
    SettleStep(s, true);
    CorrelateNone(e.corr);
    if e.corr in b {
      OrderAccountIsProper(b, s.inventories, s.nextId, e.corr);
      RegistryOfOrder(s.sets, b, e.corr);
      CorrelateOne(RollbackMessage(e.corr, b[e.corr].order, UNSET), e.corr);
    } else {
      RegistryOfOthers(s.sets, b, e.corr);
    }
  }
}
