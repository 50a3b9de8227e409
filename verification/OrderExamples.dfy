/** Runs that show what the conditions of the theorems are for. */
module OrderExamples {
  import opened Wrappers
  import opened Events
  import opened Aggregates
  import opened Messages
  import opened Decisions
  import opened OrderSystem
  import opened OrderInvariant
  import opened OrderPreservation
  import opened OrderRuns
  import opened OrderAtomicity
  import opened OrderDrain
  import opened OrderLedger
  import opened OrderErasure
  import opened OrderSolvency
  import opened Totals
  import Accounts
  import Caches
  import Inventories
  import Sagas

  lemma Extend(ls: seq<Label>, l: Label)
    ensures After(ls + [l]) == Next(After(ls), l) && BookAfter(ls + [l]) == NextBook(After(ls), BookAfter(ls), l)
  {
    assert (ls + [l])[..|ls|] == ls;
  }

  lemma StartsEmpty()
    ensures After([]) == INIT && BookAfter([]) == map[]
  {
  }

  lemma OneEvent(e: Event, id: Id)
    requires e.stream == id
    ensures OfStream([e], id) == [e]
    ensures Replay(Accounts.HANDLERS, [e]) == Accounts.Apply(Accounts.HANDLERS.initial, e.body)
  {
    OfStreamAll([e], id);
    PushReplay(Accounts.HANDLERS, [], e);
    assert [] + [e] == [e];
  }

  // ---- Overlapping withdrawals ----

  const OPEN: seq<Label> := [Request(CreateAccount("", 100)), Finish(0, false)]

  function Opening(): Event {
    Event(3, Uuid(1), Uuid(0), AccountCreated("", 100))
  }

  lemma AfterOpen()
    ensures var s := After(OPEN);
            s.log == [Opening()] && s.runs == [] && s.inventories == {} && s.nextId == 4 && s.sets == map[] && s.rows == map[]
  {
    var r := Run(Message(CreateAccount("", 100), Uuid(0)), Uuid(1), Uuid(2), None, []);
    Extend([], OPEN[0]);
    assert [] + [OPEN[0]] == [OPEN[0]];
    var s := After([OPEN[0]]);
    assert OfStream([], Uuid(1)) == [];
    assert s.runs == [r];
    Extend([OPEN[0]], OPEN[1]);
    assert [OPEN[0]] + [OPEN[1]] == OPEN;
    assert Replay(Accounts.HANDLERS, []) == Ok(Accounts.HANDLERS.initial);
    assert Decide(r, false, 3) == Commit([Opening()]);
    assert RemoveAt([r], 0) == [];
  }

  function Withdrawal(base: nat): Run {
    Run(Message(WithdrawFunds(Uuid(1), -80), Uuid(base)), Uuid(base + 1), Uuid(base + 2), None, [Opening()])
  }

  lemma AfterRequest(ls: seq<Label>, runs: seq<Run>)
    requires var s := After(ls); s.log == [Opening()] && s.runs == runs && s.inventories == {} && s.nextId >= 2
    ensures var s, s' := After(ls), After(ls + [Request(WithdrawFunds(Uuid(1), -80))]);
            s' == s.(runs := runs + [Withdrawal(s.nextId)], nextId := s.nextId + 3)
  {
    hide After, Replay;
    Extend(ls, Request(WithdrawFunds(Uuid(1), -80)));
    OneEvent(Opening(), Uuid(1));
    var s := After(ls);
    assert Start(s, Message(WithdrawFunds(Uuid(1), -80), Uuid(s.nextId)), Uuid(s.nextId + 1), Uuid(s.nextId + 2)) == Withdrawal(s.nextId);
  }

  lemma WithdrawalDecides(base: nat, uuid: nat)
    ensures Decide(Withdrawal(base), false, uuid) == Commit([Event(uuid, Uuid(1), Uuid(base), FundsWithdrawn(-80))])
  {
    OneEvent(Opening(), Uuid(1));
  }

  lemma AfterWithdrawal(ls: seq<Label>, base: nat, rest: seq<Run>)
    requires var s := After(ls); s.runs == [Withdrawal(base)] + rest && s.sets == map[]
    ensures var s, s' := After(ls), After(ls + [Finish(0, false)]);
            && s'.log == s.log + [Event(s.nextId, Uuid(1), Uuid(base), FundsWithdrawn(-80))]
            && s'.runs == rest && s'.sets == map[]
  {
    Extend(ls, Finish(0, false));
    WithdrawalDecides(base, After(ls).nextId);
    assert RemoveAt(After(ls).runs, 0) == rest;
  }

  /** Two withdrawals that both read the stream before either is committed overdraw the account:
      solvency needs commands on a stream to run one at a time. */
  lemma OverlappingWithdrawalsOverdraw()
    ensures var w := Request(WithdrawFunds(Uuid(1), -80));
            BalanceOf(OfStream(After(OPEN + [w] + [w] + [Finish(0, false)] + [Finish(0, false)]).log, Uuid(1))) == Some(-60)
  {
    hide After, Decide;
    var w := Request(WithdrawFunds(Uuid(1), -80));
    AfterOpen();
    AfterRequest(OPEN, []);
    AfterRequest(OPEN + [w], [Withdrawal(4)]);
    assert [Withdrawal(4)] + [Withdrawal(7)] == [Withdrawal(4)] + [Withdrawal(7)];
    AfterWithdrawal(OPEN + [w] + [w], 4, [Withdrawal(7)]);
    AfterWithdrawal(OPEN + [w] + [w] + [Finish(0, false)], 7, []);
    var log := After(OPEN + [w] + [w] + [Finish(0, false)] + [Finish(0, false)]).log;
    var e, e' := log[1], log[2];
    assert log == [Opening(), e, e'];
    OfStreamAll(log, Uuid(1));
    OneEvent(Opening(), Uuid(1));
    PushReplay(Accounts.HANDLERS, [Opening()], e);
    PushReplay(Accounts.HANDLERS, [Opening(), e], e');
    assert [Opening()] + [e] == [Opening(), e] && [Opening(), e] + [e'] == log;
  }

  // ---- Steps on a state where little is going on ----

  /** Nothing is pending but the given events and commands. */
  predicate Idle(s: System, events: seq<Event>, commands: seq<Message>) {
    s.events == events && s.delivery == None && s.commands == commands && s.worker == None && s.runs == []
  }

  /** The end of the i-th run, when it commits. */
  lemma FinishGives(s: System, i: nat, es: seq<Event>)
    requires i < |s.runs| && Decide(s.runs[i], false, s.nextId) == Commit(es)
    ensures Next(s, Finish(i, false)) == AfterRun(s, i, es)
  {
    hide Decide;
  }

  /** Takes the first event, settles it and acknowledges. */
  lemma DeliverFirst(s: System, e: Event, rest: seq<Event>, rejected: bool)
    requires Idle(s, [e] + rest, []) && s.sets == map[] && (rejected || !e.body.OrderCreated?)
    ensures var s1 := Next(s, TakeEvent(0));
            var s2 := Next(s1, Settle(rejected));
            Next(s2, Acknowledge)
              == s.(events := rest, rows := if rejected && Handled(e.body) then s.rows else SaveRow(s.rows, e, OfStream(s.log, e.stream)))
  {
    hide SaveRow;
    var s1 := Next(s, TakeEvent(0));
    assert RemoveAt([e] + rest, 0) == rest;
    assert s1 == s.(events := rest, delivery := Some(Delivery(e, OfStream(s.log, e.stream), false, [])));
    assert Sagas.RollbackMessages(map[], e.corr) == [];
    SettleStep(s1, rejected);
    CorrelateNone(e.corr);
  }

  /** Takes the first event, an order, hands its RemoveInventory to the queue and acknowledges. */
  lemma DeliverOrder(s: System, e: Event, rest: seq<Event>)
    requires Idle(s, [e] + rest, []) && e.body.OrderCreated? && e.corr != UNSET
    ensures var s1 := Next(s, TakeEvent(0));
            var s2 := Next(s1, Settle(false));
            var s3 := Next(s2, PublishNext);
            Next(s3, Acknowledge)
              == s.(events := rest, commands := [RemoveMessage(e.corr, e.body.order)],
                    sets := Sagas.Register(s.sets, e.corr, Sagas.ROLLBACK_ACCOUNT, e.stream))
  {
    hide SaveRow, Sagas.Register, Sagas.ProcessAll;
    var s1 := Next(s, TakeEvent(0));
    assert RemoveAt([e] + rest, 0) == rest;
    assert s1 == s.(events := rest, delivery := Some(Delivery(e, OfStream(s.log, e.stream), false, [])));
    SettleStep(s1, false);
    CorrelateOne(Message(RemoveInventory(e.body.order.inventoryId, e.body.order.id, e.body.order.quantity), UNSET), e.corr);
    var m := RemoveMessage(e.corr, e.body.order);
    var s2 := Next(s1, Settle(false));
    assert s2.delivery.value.outbox == [m];
    assert [] + [m] == [m];
    var s3 := Next(s2, PublishNext);
    assert s3.commands == [m] && s3.delivery.value.outbox == [];
  }

  /** Takes the only command and finishes it. */
  lemma WorkOnly(s: System, m: Message)
    requires Idle(s, s.events, [m])
    ensures var d := Decide(Start(s, m, UNSET, UNSET), false, s.nextId);
            Next(Next(s, TakeCommand(0)), FinishCommand)
              == match d
                 case Commit(es) => AfterWorker(s.(commands := []), es, [])
                 case Throw(reported) => AfterWorker(s.(commands := []), reported, Sagas.RollbackMessages(s.sets, m.corr))
  {
    assert Start(s, m, UNSET, UNSET).message == m;
    hide Decide, Sagas.RollbackMessages, Start;
    var s1 := Next(s, TakeCommand(0));
    assert RemoveAt([m], 0) == [];
    assert s1 == s.(commands := [], worker := Some(Start(s, m, UNSET, UNSET)));
    FinishCommandStep(s1);
  }

  lemma EmptyReplays()
    ensures Replay(Accounts.HANDLERS, []) == Ok(Accounts.HANDLERS.initial)
    ensures Replay(Inventories.HANDLERS, []) == Ok(Inventories.HANDLERS.initial)
  {
  }

  // ---- A stocked inventory ----

  /** Three pieces at five each. */
  const STOCKED: seq<Label> :=
    [Request(CreateInventory("", 3, 5))] + [Finish(0, false)] + [TakeEvent(0)] + [Settle(false)] + [Acknowledge]

  const INVENTORY: Id := Uuid(1)

  function Stocking(): Event {
    Event(3, INVENTORY, Uuid(0), InventoryCreated("", 3, 5))
  }

  function Stocked(): System {
    INIT.(log := [Stocking()], rows := map[INVENTORY := Row("", 3, 5)], inventories := {INVENTORY}, nextId := 4)
  }

  lemma StockingReplays()
    ensures Replay(Inventories.HANDLERS, [Stocking()]) == Ok(Inventories.Inventory("", Some(3), Some(5)))
  {
    PushReplay(Inventories.HANDLERS, [], Stocking());
    hide Uuid;
    assert [] + [Stocking()] == [Stocking()];
  }

  lemma StockingProjects()
    ensures OfStream([Stocking()], INVENTORY) == [Stocking()]
    ensures SaveRow(map[], Stocking(), [Stocking()]) == map[INVENTORY := Row("", 3, 5)]
  {
    hide OfStream, Replay, Uuid;
    OfStreamAll([Stocking()], INVENTORY);
    StockingReplays();
  }

  lemma AfterStockRequest()
    ensures After(STOCKED[..1])
         == INIT.(runs := [Run(Message(CreateInventory("", 3, 5), Uuid(0)), INVENTORY, Uuid(2), None, [])],
                  inventories := {INVENTORY}, nextId := 3)
  {
    Extend([], STOCKED[0]);
    assert [] + [STOCKED[0]] == STOCKED[..1];
    assert OfStream([], INVENTORY) == [];
  }

  lemma AfterStockFinish()
    ensures After(STOCKED[..2]) == INIT.(log := [Stocking()], events := [Stocking()], inventories := {INVENTORY}, nextId := 4)
  {
    hide After;
    AfterStockRequest();
    Extend(STOCKED[..1], STOCKED[1]);
    assert STOCKED[..1] + [STOCKED[1]] == STOCKED[..2];
    EmptyReplays();
    assert RemoveAt(After(STOCKED[..1]).runs, 0) == [];
  }

  lemma AfterStocked()
    ensures After(STOCKED) == Stocked()
  {
    hide After, Next, Uuid;
    AfterStockFinish();
    StockingProjects();
    assert [Stocking()] == [Stocking()] + [];
    DeliverFirst(After(STOCKED[..2]), Stocking(), [], false);
    Extend(STOCKED[..2], STOCKED[2]);
    Extend(STOCKED[..3], STOCKED[3]);
    Extend(STOCKED[..4], STOCKED[4]);
    assert STOCKED[..2] + [STOCKED[2]] == STOCKED[..3] && STOCKED[..3] + [STOCKED[3]] == STOCKED[..4];
    assert STOCKED[..4] + [STOCKED[4]] == STOCKED;
  }

  // ---- An account with a hundred ----

  const READY: seq<Label> :=
    STOCKED + [Request(CreateAccount("", 100))] + [Finish(0, false)] + [TakeEvent(0)] + [Settle(false)] + [Acknowledge]

  const ACCOUNT: Id := Uuid(5)

  function Opened(uuid: nat): Event {
    Event(uuid, ACCOUNT, Uuid(4), AccountCreated("", 100))
  }

  function OpeningRun(): Run {
    Run(Message(CreateAccount("", 100), Uuid(4)), ACCOUNT, Uuid(6), None, [])
  }

  lemma NoneOnAccount()
    ensures OfStream([Stocking()], ACCOUNT) == []
  {
    OfStreamNone([Stocking()], ACCOUNT);
  }

  lemma OpeningRequested()
    ensures Next(Stocked(), Request(CreateAccount("", 100))) == Stocked().(runs := [OpeningRun()], nextId := 7)
  {
    NoneOnAccount();
    hide OfStream;
  }

  lemma OpeningDecides(uuid: nat)
    ensures Decide(OpeningRun(), false, uuid) == Commit([Opened(uuid)])
  {
    EmptyReplays();
  }

  function Ready(): System {
    Stocked().(log := [Stocking(), Opened(7)], nextId := 8)
  }

  lemma AfterReady()
    ensures After(READY) == Ready()
  {
    hide After, Next, Uuid, Decide, SaveRow;
    var r := STOCKED + [Request(CreateAccount("", 100))];
    var f := r + [Finish(0, false)];
    AfterStocked();
    Extend(STOCKED, Request(CreateAccount("", 100)));
    OpeningRequested();
    Extend(r, Finish(0, false));
    OpeningDecides(7);
    FinishGives(After(r), 0, [Opened(7)]);
    assert RemoveAt(After(r).runs, 0) == [] && [Stocking()] + [Opened(7)] == [Stocking(), Opened(7)];
    assert [] + [Opened(7)] == [Opened(7)] + [];
    Extend(f, TakeEvent(0));
    Extend(f + [TakeEvent(0)], Settle(false));
    Extend(f + [TakeEvent(0)] + [Settle(false)], Acknowledge);
    DeliverFirst(After(f), Opened(7), [], false);
    NoRow(Stocked().rows, Opened(7), OfStream([Stocking(), Opened(7)], ACCOUNT));
  }

  lemma NoRow(rows: map<Id, Row>, e: Event, snapshot: seq<Event>)
    requires !InventoryBody(e.body)
    ensures SaveRow(rows, e, snapshot) == rows
  {
  }

  // ---- An order of two ----

  const ORDERED: seq<Label> := READY + [Request(CreateOrder(ACCOUNT, INVENTORY, 2))] + [Finish(0, false)]

  const ORDER: Id := Uuid(8)

  function PlacedOrder(): Order {
    Order(Uuid(10), ACCOUNT, INVENTORY, 10, 2)
  }

  function Placed(): Event {
    Event(11, ACCOUNT, ORDER, OrderCreated(PlacedOrder()))
  }

  function Paid(): Event {
    Event(12, ACCOUNT, ORDER, FundsWithdrawn(-10))
  }

  function OrderRun(): Run {
    Run(Message(CreateOrder(ACCOUNT, INVENTORY, 2), ORDER), Uuid(9), Uuid(10), Some(Row("", 3, 5)), [Opened(7)])
  }

  lemma OnAccount()
    ensures OfStream([Stocking(), Opened(7)], ACCOUNT) == [Opened(7)]
  {
    NoneOnAccount();
    PushEvent([Stocking()], Opened(7), ACCOUNT);
    assert [Stocking()] + [Opened(7)] == [Stocking(), Opened(7)] && [] + [Opened(7)] == [Opened(7)];
  }

  lemma OrderRequested()
    ensures Next(Ready(), Request(CreateOrder(ACCOUNT, INVENTORY, 2))) == Ready().(runs := [OrderRun()], nextId := 11)
  {
    OnAccount();
    hide OfStream;
    assert |INVENTORY| == 2 && |ACCOUNT| == 6;
  }

  lemma OrderDecides()
    ensures Decide(OrderRun(), false, 11) == Commit([Placed(), Paid()])
  {
    OneEvent(Opened(7), ACCOUNT);
    hide Replay;
  }

  function Ordered(): System {
    Ready().(log := [Stocking(), Opened(7), Placed(), Paid()], events := [Placed(), Paid()], nextId := 13)
  }

  lemma AfterOrdered()
    ensures After(ORDERED) == Ordered()
  {
    hide After, Next, Uuid, Decide;
    var c := CreateOrder(ACCOUNT, INVENTORY, 2);
    AfterReady();
    Extend(READY, Request(c));
    OrderRequested();
    Extend(READY + [Request(c)], Finish(0, false));
    OrderDecides();
    FinishGives(After(READY + [Request(c)]), 0, [Placed(), Paid()]);
    assert RemoveAt([OrderRun()], 0) == [] && [] + [Placed(), Paid()] == [Placed(), Paid()];
    assert [Stocking(), Opened(7)] + [Placed(), Paid()] == [Stocking(), Opened(7), Placed(), Paid()];
  }

  // ---- Its delivery is rejected ----

  const REJECTED: seq<Label> :=
    ORDERED + [TakeEvent(0)] + [Settle(true)] + ([Acknowledge] + [TakeEvent(0)] + [Settle(false)] + [Acknowledge])

  lemma AfterRejected()
    ensures Idle(After(REJECTED), [], []) && After(REJECTED).log == After(ORDERED).log
  {
    hide After, Next, SaveRow, Step, Uuid;
    var taken, settled := ORDERED + [TakeEvent(0)], ORDERED + [TakeEvent(0)] + [Settle(true)];
    var refused := settled + [Acknowledge];
    AfterOrdered();
    assert [Placed()] + [Paid()] == [Placed(), Paid()] && [Paid()] + [] == [Paid()];
    DeliverFirst(After(ORDERED), Placed(), [Paid()], true);
    Extend(ORDERED, TakeEvent(0));
    Extend(taken, Settle(true));
    Extend(settled, Acknowledge);
    DeliverFirst(After(refused), Paid(), [], false);
    Extend(refused, TakeEvent(0));
    Extend(refused + [TakeEvent(0)], Settle(false));
    Extend(refused + [TakeEvent(0)] + [Settle(false)], Acknowledge);
    assert refused + [TakeEvent(0)] + [Settle(false)] + [Acknowledge] == REJECTED;
  }

  lemma TakenIsPlaced()
    ensures var s := After(ORDERED + [TakeEvent(0)]);
            Enabled(s, Settle(true)) && s.delivery.value.event == Placed()
  {
    hide After, Uuid;
    AfterOrdered();
    Extend(ORDERED, TakeEvent(0));
  }

  /** A run with one rejected delivery that ends with nothing pending and the order torn: it is
      listed and paid for, and its inventory is never removed. */
  lemma RejectionTearsAnOrder()
    ensures Quiescent(After(REJECTED)) && Placed() in After(REJECTED).log
    ensures !Done(After(REJECTED).log, ORDER, PlacedOrder()) && !Compensated(After(REJECTED).log, ORDER, PlacedOrder())
  {
    hide After, Done, Compensated, Enabled, Uuid;
    AfterOrdered();
    AfterRejected();
    TakenIsPlaced();
    RejectedPlacementIsNeverAtomic(ORDERED + [TakeEvent(0)], [Acknowledge] + [TakeEvent(0)] + [Settle(false)] + [Acknowledge]);
  }

  // ---- It is accepted and removed; then its payment's delivery is rejected ----

  const ISSUED: seq<Label> := ORDERED + [TakeEvent(0)] + [Settle(false)] + [PublishNext] + [Acknowledge]

  const REMOVED: seq<Label> := ISSUED + [TakeCommand(0)] + [FinishCommand]

  const LATE: seq<Label> := REMOVED + [TakeEvent(0)]

  function Registry(): Caches.Sets {
    Sagas.Register(map[], ORDER, Sagas.ROLLBACK_ACCOUNT, ACCOUNT)
  }

  function Issued(): System {
    Ordered().(events := [Paid()], commands := [RemoveMessage(ORDER, PlacedOrder())], sets := Registry())
  }

  lemma AfterIssued()
    ensures After(ISSUED) == Issued()
  {
    hide After, Next, Uuid;
    AfterOrdered();
    assert [Placed()] + [Paid()] == [Placed(), Paid()];
    DeliverOrder(Ordered(), Placed(), [Paid()]);
    Extend(ORDERED, TakeEvent(0));
    Extend(ORDERED + [TakeEvent(0)], Settle(false));
    Extend(ORDERED + [TakeEvent(0)] + [Settle(false)], PublishNext);
    Extend(ORDERED + [TakeEvent(0)] + [Settle(false)] + [PublishNext], Acknowledge);
  }

  function Taken(): Event {
    Event(13, INVENTORY, ORDER, InventoryRemoved(2))
  }

  lemma OnInventory()
    ensures OfStream(Ordered().log, INVENTORY) == [Stocking()]
  {
    StockingProjects();
    assert |INVENTORY| == 2 && |ACCOUNT| == 6;
    hide Uuid;
    var rest := [Opened(7), Placed(), Paid()];
    OfStreamNone(rest, INVENTORY);
    FilterAppend([Stocking()], rest, (e: Event) => e.stream == INVENTORY);
    hide Filter;
    assert [Stocking()] + rest == Ordered().log && [Stocking()] + [] == [Stocking()];
  }

  lemma RemovalDecides()
    ensures Decide(Start(Issued(), RemoveMessage(ORDER, PlacedOrder()), UNSET, UNSET), false, 13) == Commit([Taken()])
  {
    OnInventory();
    StockingReplays();
    hide OfStream, Replay;
    RemovalDecision(Start(Issued(), RemoveMessage(ORDER, PlacedOrder()), UNSET, UNSET), 13);
  }

  lemma AfterRemoved()
    ensures var s := After(REMOVED);
            && Idle(s, [Paid(), Taken()], []) && s.log == [Stocking(), Opened(7), Placed(), Paid(), Taken()]
            && s.sets == Registry()
  {
    hide After, Next, Uuid, Decide, Start, Sagas.Register;
    AfterIssued();
    WorkOnly(Issued(), RemoveMessage(ORDER, PlacedOrder()));
    RemovalDecides();
    Extend(ISSUED, TakeCommand(0));
    Extend(ISSUED + [TakeCommand(0)], FinishCommand);
    assert [Paid()] + [Taken()] == [Paid(), Taken()];
    assert [Stocking(), Opened(7), Placed(), Paid()] + [Taken()] == [Stocking(), Opened(7), Placed(), Paid(), Taken()];
  }

  lemma AfterLate()
    ensures var s := After(LATE);
            && Enabled(s, Settle(true)) && s.delivery.value.event == Paid()
            && s.log == [Stocking(), Opened(7), Placed(), Paid(), Taken()]
  {
    hide After, Uuid, Sagas.Register;
    AfterRemoved();
    Extend(REMOVED, TakeEvent(0));
  }

  lemma LateIsRemoved()
    ensures ORDER in BookAfter(LATE) && BookAfter(LATE)[ORDER].phase.Removed? && BookAfter(LATE)[ORDER].order == PlacedOrder()
  {
    hide After, BookAfter, Inv, Uuid;
    AfterLate();
    ReachableInv(LATE);
    var s, b := After(LATE), BookAfter(LATE);
    OrdersHaveEntries(LATE, s, b, Placed());
    EntriesAreOrders(LATE, s, b, ORDER);
    RemovedIfInLog(s, b, Taken());
  }

  lemma RemovedIfInLog(s: System, b: Book, e: Event)
    requires e in s.log && e.body.InventoryRemoved? && e.corr in b
    requires Inv(s, b)
    ensures b[e.corr].phase.Removed?
  {
    hide BookOk, StreamsOk, RunsOk, DueOk, WorkOk, CompensationOwed, RegistryOk, WorkerOk;
    FilterMembers(s.log, (x: Event) => InRemovalPart(x, e.corr));
    assert e in RemovalPart(s.log, e.corr);
    assert RemovalSide(s.log, e.corr, b[e.corr]);
  }

  /** From there on every way to quiescence, and there is one, ends with the order rolled back and
      its inventory removed all the same. */
  lemma LateRejectionTearsAnOrder() returns (more: seq<Label>)
    ensures NoRejections(more) && Quiescent(After(LATE + [Settle(true)] + more))
    ensures var log := After(LATE + [Settle(true)] + more).log;
            && !Done(log, ORDER, PlacedOrder()) && !Compensated(log, ORDER, PlacedOrder())
            && RolledBack(log, ORDER) && RemovalPart(log, ORDER) != []
  {
    hide After, BookAfter, Done, Compensated, Enabled, Uuid, Quiescent, RolledBack, RemovalPart;
    AfterLate();
    LateIsRemoved();
    more := QuiescenceIsReached(LATE + [Settle(true)]);
    LateRejectionIsNeverAtomic(LATE, more, ORDER);
  }

  // ---- Commands that overtake the opening of their account ----

  /** The account is being opened while a deposit on it is committed: `execute` hands out the
      stream id before the opening is stored. */
  const EARLY: seq<Label> :=
    [Request(CreateAccount("", 100))] + [Request(DepositFunds(Uuid(1), 5))] + [Finish(1, false)] + [Finish(0, false)]

  function EarlyOpening(): Run {
    Run(Message(CreateAccount("", 100), Uuid(0)), Uuid(1), Uuid(2), None, [])
  }

  function EarlyDeposit(): Run {
    Run(Message(DepositFunds(Uuid(1), 5), Uuid(3)), Uuid(4), Uuid(5), None, [])
  }

  function DepositFirst(): seq<Event> {
    [Event(6, Uuid(1), Uuid(3), FundsDeposited(5)), Event(7, Uuid(1), Uuid(0), AccountCreated("", 100))]
  }

  lemma EarlyRequests()
    ensures Next(Next(INIT, EARLY[0]), EARLY[1]) == INIT.(runs := [EarlyOpening(), EarlyDeposit()], nextId := 6)
  {
    assert OfStream([], Uuid(1)) == [];
    var s := Next(INIT, EARLY[0]);
    assert s == INIT.(runs := [EarlyOpening()], nextId := 3);
    assert [EarlyOpening()] + [EarlyDeposit()] == [EarlyOpening(), EarlyDeposit()];
  }

  lemma AfterEarly()
    ensures var s := After(EARLY); s.log == DepositFirst() && s.inventories == {}
  {
    hide Next, After, Uuid;
    EmptyReplays();
    var two := [EARLY[0]] + [EARLY[1]];
    StartsEmpty();
    assert [] + [EARLY[0]] == [EARLY[0]];
    Extend([], EARLY[0]);
    Extend([EARLY[0]], EARLY[1]);
    EarlyRequests();
    Extend(two, Finish(1, false));
    FinishGives(After(two), 1, [DepositFirst()[0]]);
    assert RemoveAt([EarlyOpening(), EarlyDeposit()], 1) == [EarlyOpening()] && [] + [DepositFirst()[0]] == [DepositFirst()[0]];
    Extend(two + [Finish(1, false)], Finish(0, false));
    FinishGives(After(two + [Finish(1, false)]), 0, [DepositFirst()[1]]);
    assert [DepositFirst()[0]] + [DepositFirst()[1]] == DepositFirst();
    assert two + [Finish(1, false)] + [Finish(0, false)] == EARLY;
  }

  lemma DepositFirstReplays()
    ensures Replay(Accounts.HANDLERS, DepositFirst()) == Ok(Accounts.Account("", Some(100), None))
  {
    hide Uuid;
    var h := DepositFirst();
    EmptyReplays();
    PushReplay(Accounts.HANDLERS, [], h[0]);
    PushReplay(Accounts.HANDLERS, [h[0]], h[1]);
    hide Replay;
    assert [] + [h[0]] == [h[0]] && [h[0]] + [h[1]] == h;
  }

  lemma DepositFirstOpens()
    ensures OpeningAt(DepositFirst()) == 1 && Expected(DepositFirst(), []) == 105
  {
    hide Uuid;
    var h := DepositFirst();
    assert h[1..] == [h[1]];
    TotalTwo(h[0], h[1], (e: Event) => DirectlyMoved(h, e));
    assert h == [h[0], h[1]];
  }

  /** The deposit is lost: by the stream the account should hold 105, and it replays to 100. */
  lemma EarlyDepositIsLost()
    ensures OfStream(After(EARLY).log, Uuid(1)) == DepositFirst()
    ensures Replay(Accounts.HANDLERS, DepositFirst()) == Ok(Accounts.Account("", Some(100), None))
    ensures OpeningAt(DepositFirst()) == 1 && Expected(DepositFirst(), []) == 105
  {
    hide After, Uuid, Replay, OfStream, OpeningAt, Expected;
    AfterEarly();
    OfStreamAll(DepositFirst(), Uuid(1));
    DepositFirstReplays();
    DepositFirstOpens();
  }

  // ---- An order that overtakes the opening of its account ----

  /** No balance yet, so nothing is checked; the inventory holds three, so removing four throws. */
  const OVERTAKING: seq<Label> :=
    STOCKED + [Request(CreateAccount("", 100))] + [Request(CreateOrder(ACCOUNT, INVENTORY, 4))]
      + [Finish(1, false)] + [Finish(0, false)]

  const REFUNDED: seq<Label> :=
    OVERTAKING + [TakeEvent(0)] + [Settle(false)] + [PublishNext] + [Acknowledge]
      + [TakeCommand(0)] + [FinishCommand] + [TakeCommand(0)] + [FinishCommand]

  const EARLY_ORDER: Id := Uuid(7)

  function TooMany(): Order {
    Order(Uuid(9), ACCOUNT, INVENTORY, 20, 4)
  }

  function EarlyPlaced(): Event {
    Event(10, ACCOUNT, EARLY_ORDER, OrderCreated(TooMany()))
  }

  function EarlyPaid(): Event {
    Event(11, ACCOUNT, EARLY_ORDER, FundsWithdrawn(-20))
  }

  function Refund(): Event {
    Event(13, ACCOUNT, EARLY_ORDER, RollbackFundsWithdrawn(-20))
  }

  function Withdrawn(): Event {
    Event(14, ACCOUNT, EARLY_ORDER, RollbackOrderCreated(Uuid(9)))
  }

  function EarlyOrderRun(): Run {
    Run(Message(CreateOrder(ACCOUNT, INVENTORY, 4), EARLY_ORDER), Uuid(8), Uuid(9), Some(Row("", 3, 5)), [])
  }

  function Overtaken(): System {
    Stocked().(log := [Stocking(), EarlyPlaced(), EarlyPaid(), Opened(12)], events := [EarlyPlaced(), EarlyPaid(), Opened(12)],
               nextId := 13)
  }

  lemma EarlyOrderRequested()
    ensures Next(Stocked().(runs := [OpeningRun()], nextId := 7), Request(CreateOrder(ACCOUNT, INVENTORY, 4)))
         == Stocked().(runs := [OpeningRun(), EarlyOrderRun()], nextId := 10)
  {
    NoneOnAccount();
    hide OfStream;
    assert |INVENTORY| == 2 && |ACCOUNT| == 6;
    assert [OpeningRun()] + [EarlyOrderRun()] == [OpeningRun(), EarlyOrderRun()];
  }

  lemma EarlyOrderDecides()
    ensures Decide(EarlyOrderRun(), false, 10) == Commit([EarlyPlaced(), EarlyPaid()])
  {
    EmptyReplays();
    hide Replay, Uuid;
  }

  lemma AfterOvertaking()
    ensures After(OVERTAKING) == Overtaken()
  {
    hide After, Next, Uuid, Decide;
    var a, c := Request(CreateAccount("", 100)), Request(CreateOrder(ACCOUNT, INVENTORY, 4));
    AfterStocked();
    Extend(STOCKED, a);
    OpeningRequested();
    Extend(STOCKED + [a], c);
    EarlyOrderRequested();
    Extend(STOCKED + [a] + [c], Finish(1, false));
    EarlyOrderDecides();
    FinishGives(After(STOCKED + [a] + [c]), 1, [EarlyPlaced(), EarlyPaid()]);
    assert RemoveAt([OpeningRun(), EarlyOrderRun()], 1) == [OpeningRun()] && RemoveAt([OpeningRun()], 0) == [];
    Extend(STOCKED + [a] + [c] + [Finish(1, false)], Finish(0, false));
    OpeningDecides(12);
    FinishGives(After(STOCKED + [a] + [c] + [Finish(1, false)]), 0, [Opened(12)]);
    assert [Stocking()] + [EarlyPlaced(), EarlyPaid()] + [Opened(12)] == Overtaken().log;
    assert [] + [EarlyPlaced(), EarlyPaid()] + [Opened(12)] == Overtaken().events;
  }

  function EarlyRegistry(): Caches.Sets {
    Sagas.Register(map[], EARLY_ORDER, Sagas.ROLLBACK_ACCOUNT, ACCOUNT)
  }

  function Waiting(commands: seq<Message>): System {
    Overtaken().(events := [EarlyPaid(), Opened(12)], commands := commands, sets := EarlyRegistry())
  }

  lemma StockIsAlone()
    ensures OfStream(Overtaken().log, INVENTORY) == [Stocking()]
    ensures OfStream(Overtaken().log, ACCOUNT) == [EarlyPlaced(), EarlyPaid(), Opened(12)]
  {
    StockingProjects();
    NoneOnAccount();
    assert |INVENTORY| == 2 && |ACCOUNT| == 6;
    hide Uuid, Filter;
    var rest := [EarlyPlaced(), EarlyPaid(), Opened(12)];
    OfStreamNone(rest, INVENTORY);
    OfStreamAll(rest, ACCOUNT);
    FilterAppend([Stocking()], rest, (e: Event) => e.stream == INVENTORY);
    FilterAppend([Stocking()], rest, (e: Event) => e.stream == ACCOUNT);
    assert [Stocking()] + rest == Overtaken().log && [Stocking()] + [] == [Stocking()] && [] + rest == rest;
  }

  lemma TooManyDecides()
    ensures Decide(Start(Waiting([]), RemoveMessage(EARLY_ORDER, TooMany()), UNSET, UNSET), false, 13) == Throw([])
  {
    StockIsAlone();
    StockingReplays();
    hide OfStream, Replay, Sagas.Register;
    RemovalDecision(Start(Waiting([]), RemoveMessage(EARLY_ORDER, TooMany()), UNSET, UNSET), 13);
  }

  lemma EarlyRegistryHolds()
    ensures Sagas.RollbackMessages(EarlyRegistry(), EARLY_ORDER) == [RollbackMessage(EARLY_ORDER, TooMany(), UNSET)]
  {
    hide Uuid, Sagas.Entry, Sagas.Decode, Sagas.SetKey;
    assert ':' !in ACCOUNT;
    Sagas.EntryRoundTrip(Sagas.ROLLBACK_ACCOUNT, ACCOUNT);
    assert Caches.Members(EarlyRegistry(), Sagas.SetKey(EARLY_ORDER)) == [Sagas.Entry(Sagas.ROLLBACK_ACCOUNT, ACCOUNT)];
  }

  function EarlyHistory(): seq<Event> {
    [EarlyPlaced(), EarlyPaid(), Opened(12)]
  }

  lemma EarlyHistoryReplays()
    ensures Replay(Accounts.HANDLERS, EarlyHistory()) == Ok(Accounts.Account("", Some(100), Some([TooMany()])))
  {
    hide Uuid;
    var h := EarlyHistory();
    EmptyReplays();
    PushReplay(Accounts.HANDLERS, [], h[0]);
    PushReplay(Accounts.HANDLERS, [h[0]], h[1]);
    PushReplay(Accounts.HANDLERS, [h[0], h[1]], h[2]);
    hide Replay;
    assert [] + [h[0]] == [h[0]] && [h[0]] + [h[1]] == [h[0], h[1]] && [h[0], h[1]] + [h[2]] == h;
    assert [] + [TooMany()] == [TooMany()];
  }

  lemma EarlyPair()
    ensures OfCorrelation([EarlyPlaced(), EarlyPaid()], EARLY_ORDER) == [EarlyPlaced(), EarlyPaid()]
    ensures Without([EarlyPlaced(), EarlyPaid()], EARLY_ORDER) == []
  {
    hide Uuid, Filter;
    FilterAll([EarlyPlaced(), EarlyPaid()], (e: Event) => e.corr == EARLY_ORDER);
    FilterNone([EarlyPlaced(), EarlyPaid()], (e: Event) => e.corr != EARLY_ORDER);
  }

  lemma OtherCorrelation()
    ensures Opened(12).corr != EARLY_ORDER
  {
    assert |EARLY_ORDER| == 8 && |Uuid(4)| == 5;
  }

  lemma EarlyParts()
    ensures OfCorrelation(EarlyHistory(), EARLY_ORDER) == [EarlyPlaced(), EarlyPaid()]
    ensures Without(EarlyHistory(), EARLY_ORDER) == [Opened(12)]
  {
    hide Uuid, OfCorrelation, Without, OfStream;
    EarlyPair();
    OtherCorrelation();
    PushEvent([EarlyPlaced(), EarlyPaid()], Opened(12), EARLY_ORDER);
    assert [EarlyPlaced(), EarlyPaid()] + [Opened(12)] == EarlyHistory() && [] + [Opened(12)] == [Opened(12)];
  }

  lemma RefundDecides()
    ensures Decide(Start(Waiting([]), RollbackMessage(EARLY_ORDER, TooMany(), UNSET), UNSET, UNSET), false, 13)
         == Commit([Refund(), Withdrawn()])
  {
    StockIsAlone();
    EarlyHistoryReplays();
    EarlyParts();
    hide OfStream, Replay, OfCorrelation, Decide, Sagas.Register, Uuid;
    var r := Start(Waiting([]), RollbackMessage(EARLY_ORDER, TooMany(), UNSET), UNSET, UNSET);
    RollbackDecision(r, EARLY_ORDER, Entry(TooMany(), EarlyPlaced(), EarlyPaid(), Failed, false), 13);
  }

  lemma AfterRefunded()
    ensures var s := After(REFUNDED);
            && Idle(s, [EarlyPaid(), Opened(12), Refund(), Withdrawn()], [])
            && s.log == [Stocking(), EarlyPlaced(), EarlyPaid(), Opened(12), Refund(), Withdrawn()]
  {
    hide After, Next, Uuid, Decide, Start, Sagas.Register, Sagas.RollbackMessages;
    var a := OVERTAKING + [TakeEvent(0)] + [Settle(false)] + [PublishNext] + [Acknowledge];
    var b := a + [TakeCommand(0)] + [FinishCommand];
    var m, n := RemoveMessage(EARLY_ORDER, TooMany()), RollbackMessage(EARLY_ORDER, TooMany(), UNSET);
    AfterOvertaking();
    assert [EarlyPlaced()] + [EarlyPaid(), Opened(12)] == [EarlyPlaced(), EarlyPaid(), Opened(12)];
    DeliverOrder(Overtaken(), EarlyPlaced(), [EarlyPaid(), Opened(12)]);
    Extend(OVERTAKING, TakeEvent(0));
    Extend(OVERTAKING + [TakeEvent(0)], Settle(false));
    Extend(OVERTAKING + [TakeEvent(0)] + [Settle(false)], PublishNext);
    Extend(OVERTAKING + [TakeEvent(0)] + [Settle(false)] + [PublishNext], Acknowledge);
    assert After(a) == Waiting([m]);
    WorkOnly(Waiting([m]), m);
    SameStart([m], m);
    TooManyDecides();
    EarlyRegistryHolds();
    Extend(a, TakeCommand(0));
    Extend(a + [TakeCommand(0)], FinishCommand);
    assert [] + [n] == [n] && Overtaken().log + [] == Overtaken().log && Waiting([]).events + [] == Waiting([]).events;
    assert After(b) == Waiting([n]);
    WorkOnly(Waiting([n]), n);
    SameStart([n], n);
    RefundDecides();
    Extend(b, TakeCommand(0));
    Extend(b + [TakeCommand(0)], FinishCommand);
    assert Overtaken().log + [Refund(), Withdrawn()]
        == [Stocking(), EarlyPlaced(), EarlyPaid(), Opened(12), Refund(), Withdrawn()];
    assert Waiting([]).events + [Refund(), Withdrawn()] == [EarlyPaid(), Opened(12), Refund(), Withdrawn()];
  }

  lemma SameStart(commands: seq<Message>, m: Message)
    ensures Start(Waiting(commands), m, UNSET, UNSET) == Start(Waiting([]), m, UNSET, UNSET)
  {
  }

  function RefundedHistory(): seq<Event> {
    EarlyHistory() + [Refund()] + [Withdrawn()]
  }

  lemma RefundedReplays()
    ensures Replay(Accounts.HANDLERS, RefundedHistory()) == Ok(Accounts.Account("", Some(120), Some([])))
  {
    hide Uuid;
    EarlyHistoryReplays();
    PushReplay(Accounts.HANDLERS, EarlyHistory(), Refund());
    PushReplay(Accounts.HANDLERS, EarlyHistory() + [Refund()], Withdrawn());
    hide Replay;
    assert [TooMany()][..0] == [] && TooMany().id == Uuid(9);
  }

  lemma OpenedAlone()
    ensures Accounts.Balance([Opened(12)]) == Some(100)
  {
    assert [Opened(12)][..0] == [];
  }

  lemma RefundedOpens()
    ensures OpeningAt(RefundedHistory()) == 2 && RefundedHistory()[..2] == [EarlyPlaced(), EarlyPaid()]
  {
    hide Uuid;
    assert RefundedHistory()[1..][1..][0] == Opened(12);
  }

  lemma RefundedParts()
    ensures Without(RefundedHistory(), EARLY_ORDER) == [Opened(12)]
    ensures OpenedInBetween(RefundedHistory(), EARLY_ORDER)
  {
    EarlyParts();
    RefundedOpens();
    hide Uuid, OfCorrelation, Without, OfStream, OpeningAt;
    EarlyPair();
    PushEvent(EarlyHistory(), Refund(), EARLY_ORDER);
    PushEvent(EarlyHistory() + [Refund()], Withdrawn(), EARLY_ORDER);
  }

  /** Opened with a hundred, an order of twenty placed, paid and compensated: the account holds 120,
      and without the order it would hold 100. */
  lemma RefundOfOverwrittenPayment()
    ensures OfStream(After(REFUNDED).log, ACCOUNT) == RefundedHistory()
    ensures Replay(Accounts.HANDLERS, RefundedHistory()) == Ok(Accounts.Account("", Some(120), Some([])))
    ensures Without(RefundedHistory(), EARLY_ORDER) == [Opened(12)] && Accounts.Balance([Opened(12)]) == Some(100)
    ensures OpenedInBetween(RefundedHistory(), EARLY_ORDER)
  {
    hide After, Uuid, Replay, OfStream, Without, OpenedInBetween, Accounts.BalanceFrom;
    AfterRefunded();
    StockIsAlone();
    RefundedReplays();
    RefundedParts();
    OpenedAlone();
    PushEvent(Overtaken().log, Refund(), ACCOUNT);
    PushEvent(Overtaken().log + [Refund()], Withdrawn(), ACCOUNT);
    assert Overtaken().log + [Refund()] + [Withdrawn()] == After(REFUNDED).log;
  }
}
