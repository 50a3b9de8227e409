/** The order in which events may enter the log: what must come before what, and what comes once.
    Every run of the order system keeps to it. */
module OrderHistory {
  import opened Wrappers
  import opened Events
  import opened Aggregates
  import opened Messages
  import opened Decisions
  import opened OrderSystem
  import opened OrderInvariant
  import opened OrderPreservation
  import opened OrderRuns
  import Accounts
  import Inventories
  import Sagas

  predicate Mentions(b: Body, orderId: Id) {
    (b.OrderCreated? && b.order.id == orderId) || (b.RollbackOrderCreated? && b.orderId == orderId)
  }

  ghost predicate Created(log: seq<Event>, id: Id) {
    exists e :: e in log && e.stream == id && e.body.InventoryCreated?
  }

  ghost predicate Unused(log: seq<Event>, id: Id) {
    forall e :: e in log ==> e.stream != id
  }

  ghost predicate Unopened(log: seq<Event>, id: Id) {
    forall e :: e in log && e.stream == id ==> !e.body.AccountCreated?
  }

  ghost predicate NewOrderId(log: seq<Event>, orderId: Id) {
    forall e :: e in log ==> !Mentions(e.body, orderId)
  }

  /** Whether an event may follow a log. */
  ghost predicate Fits(log: seq<Event>, e: Event) {
    match e.body
    case AccountCreated(_, _) => Unopened(log, e.stream)
    case OrderCreated(order) => NewOrderId(log, order.id)
    case InventoryCreated(_, _, _) => Unused(log, e.stream)
    case InventoryCreatedFailed(_) => Unused(log, e.stream)
    case InventoryRemoved(_) => Created(log, e.stream)
    case _ => true
  }

  ghost predicate Chronicle(log: seq<Event>) {
    log == [] || (Chronicle(log[..|log| - 1]) && Fits(log[..|log| - 1], log[|log| - 1]))
  }

  lemma ChroniclePush(log: seq<Event>, e: Event)
    requires Chronicle(log) && Fits(log, e)
    ensures Chronicle(log + [e])
  {
    assert (log + [e])[..|log|] == log;
  }

  lemma ChroniclePushTwo(log: seq<Event>, e: Event, e': Event)
    requires Chronicle(log) && Fits(log, e) && Fits(log + [e], e')
    ensures Chronicle(log + [e, e'])
  {
    ChroniclePush(log, e);
    ChroniclePush(log + [e], e');
    assert log + [e] + [e'] == log + [e, e'];
  }

  /** What a run from outside may still create. */
  ghost predicate RunFits(r: Run, log: seq<Event>) {
    && (r.message.command.CreateAccount? ==> Unopened(log, r.streamId))
    && (r.message.command.CreateInventory? ==> Unused(log, r.streamId))
    && (r.message.command.CreateOrder? && r.row.Some? ==> Created(log, r.message.command.inventoryId))
    && NewOrderId(log, r.orderId)
  }

  ghost predicate RunsFit(runs: seq<Run>, log: seq<Event>) {
    && (forall r :: r in runs ==> RunFits(r, log))
    && (forall i, j :: 0 <= i < j < |runs| ==> runs[i].streamId != runs[j].streamId)
  }

  ghost predicate History(s: System, b: Book) {
    && Chronicle(s.log)
    && RunsFit(s.runs, s.log)
    && (forall c :: c in b ==> Created(s.log, b[c].order.inventoryId))
    && (forall id :: id in s.rows ==> Created(s.log, id))
  }

  // ---- What a step appends ----

  /** An event that a run from outside appends. */
  ghost predicate FromRun(e: Event, r: Run) {
    && e.stream == Target(r.message.command, r.streamId)
    && (e.body.AccountCreated? ==> r.message.command.CreateAccount?)
    && (e.body.InventoryCreated? || e.body.InventoryCreatedFailed? ==> r.message.command.CreateInventory?)
    && (e.body.OrderCreated? ==> r.message.command.CreateOrder? && e.body.order.id == r.orderId)
    && !e.body.InventoryRemoved? && !e.body.RollbackOrderCreated?
  }

  /** An event that the worker appends. */
  ghost predicate FromWorker(e: Event, s: System, b: Book) {
    && e.corr in b
    && (e.body == RollbackFundsWithdrawn(-b[e.corr].order.cost) || e.body == RollbackOrderCreated(b[e.corr].order.id)
        || (e.body.InventoryRemoved? && e.stream == b[e.corr].order.inventoryId))
    && (!e.body.InventoryRemoved? ==> e.stream == b[e.corr].order.accountId)
  }

  lemma RunAppends(r: Run, nameTaken: bool, uuid: nat)
    requires External(r.message.command)
    ensures var es := Outcome(Decide(r, nameTaken, uuid));
            && (forall e :: e in es ==> FromRun(e, r))
            && (|es| == 0 || |es| == 1 || (|es| == 2 && es[0].body.OrderCreated? && es[1].body.FundsWithdrawn?))
            && (r.message.command.CreateOrder? && Decide(r, nameTaken, uuid).Commit? ==>
                  r.row.Some? && |es| == 2 && es[0].body.order.inventoryId == r.message.command.inventoryId)
  {
  }

  lemma WorkerAppends(s: System, b: Book)
    requires s.worker.Some?
    requires Inv(s, b)
    ensures var es := Outcome(Decide(s.worker.value, false, s.nextId));
            && (forall e :: e in es ==> FromWorker(e, s, b))
            && (|es| == 0 || (|es| == 1 && es[0].body.InventoryRemoved?)
                || (|es| == 2 && es[0].body.RollbackFundsWithdrawn? && es[1].body.RollbackOrderCreated?))
  {
    hide BookOk, LogOk, StreamsOk, RunsOk, DueOk, WorkOk, CompensationOwed, RegistryOk, WorkerOk, Work, Decide;
    WorkerIsPublished(s, b);
    WorkerIsPending(s);
    if s.worker.value.message.command.RemoveInventory? {
      IssuedIfPending(Work(s), b, s.worker.value.message);
      RemovalDecision(s.worker.value, s.nextId);
    } else {
      WorkerRollback(s, b);
      OrderAccountIsProper(b, s.inventories, s.nextId, s.worker.value.message.command.correlationId);
    }
  }

  // ---- Growth of the log ----

  lemma CreatedGrows(log: seq<Event>, es: seq<Event>, id: Id)
    requires Created(log, id)
    ensures Created(log + es, id)
  {
    var e :| e in log && e.stream == id && e.body.InventoryCreated?;
    assert e in log + es;
  }

  lemma OthersStillFit(r: Run, log: seq<Event>, es: seq<Event>)
    requires RunFits(r, log)
    requires r.message.command.CreateAccount? ==> forall e :: e in es && e.stream == r.streamId ==> !e.body.AccountCreated?
    requires r.message.command.CreateInventory? ==> forall e :: e in es ==> e.stream != r.streamId
    requires forall e :: e in es ==> !Mentions(e.body, r.orderId)
    ensures RunFits(r, log + es)
  {
    if r.message.command.CreateOrder? && r.row.Some? {
      CreatedGrows(log, es, r.message.command.inventoryId);
    }
  }

  lemma FromRunFits(r: Run, log: seq<Event>, e: Event)
    requires RunFits(r, log) && FromRun(e, r)
    ensures Fits(log, e)
  {
  }

  lemma RunKeepsChronicle(r: Run, nameTaken: bool, uuid: nat, log: seq<Event>)
    requires Chronicle(log) && RunFits(r, log) && External(r.message.command)
    ensures Chronicle(log + Outcome(Decide(r, nameTaken, uuid)))
  {
    hide Decide, RunFits, FromRun, Chronicle;
    var es := Outcome(Decide(r, nameTaken, uuid));
    RunAppends(r, nameTaken, uuid);
    if |es| == 0 {
      assert log + es == log;
    } else if |es| == 1 {
      assert es == [es[0]];
      FromRunFits(r, log, es[0]);
      ChroniclePush(log, es[0]);
    } else {
      assert es == [es[0], es[1]];
      FromRunFits(r, log, es[0]);
      ChroniclePushTwo(log, es[0], es[1]);
    }
  }

  lemma WorkerFits(log: seq<Event>, e: Event, s: System, b: Book)
    requires FromWorker(e, s, b) && forall c :: c in b ==> Created(log, b[c].order.inventoryId)
    ensures Fits(log, e)
  {
  }

  lemma WorkerKeepsChronicle(s: System, b: Book)
    requires s.worker.Some?
    requires Inv(s, b)
    requires History(s, b)
    ensures Chronicle(s.log + Outcome(Decide(s.worker.value, false, s.nextId)))
  {
    hide Decide, RunsFit, FromWorker, Inv, Chronicle;
    var es := Outcome(Decide(s.worker.value, false, s.nextId));
    WorkerAppends(s, b);
    if |es| == 0 {
      assert s.log + es == s.log;
    } else if |es| == 1 {
      assert es == [es[0]];
      WorkerFits(s.log, es[0], s, b);
      ChroniclePush(s.log, es[0]);
    } else {
      assert es == [es[0], es[1]];
      ChroniclePushTwo(s.log, es[0], es[1]);
    }
  }

  lemma RunStillFits(s: System, b: Book, r: Run, r': Run, es: seq<Event>)
    requires r in s.runs && r' in s.runs && r.streamId != r'.streamId && r.orderId != r'.orderId
    requires RunsOk(s.runs, s.log, b, s.inventories, s.nextId) && RunFits(r', s.log)
    requires forall e :: e in es ==> FromRun(e, r)
    ensures RunFits(r', s.log + es)
  {
    assert RunOk(r, s.log, b, s.inventories, s.nextId) && RunOk(r', s.log, b, s.inventories, s.nextId);
    OthersStillFit(r', s.log, es);
  }

  lemma RunsStillFit(s: System, b: Book, i: nat, es: seq<Event>)
    requires i < |s.runs| && RunsOk(s.runs, s.log, b, s.inventories, s.nextId) && RunsFit(s.runs, s.log)
    requires forall e :: e in es ==> FromRun(e, s.runs[i])
    ensures RunsFit(RemoveAt(s.runs, i), s.log + es)
  {
    hide RunOk, RunFits, FromRun;
    RemoveAtMembers(s.runs, i);
    var left := RemoveAt(s.runs, i);
    forall x | x in left
      ensures RunFits(x, s.log + es)
    {
      var j :| 0 <= j < |left| && left[j] == x;
      var k := if j < i then j else j + 1;
      assert s.runs[k] == x && x in s.runs && s.runs[i] in s.runs;
      RunStillFits(s, b, s.runs[i], x, es);
    }
  }

  lemma RunsFitWorker(s: System, b: Book, es: seq<Event>)
    requires RunsOk(s.runs, s.log, b, s.inventories, s.nextId)
    requires History(s, b)
    requires forall e :: e in es ==> FromWorker(e, s, b)
    requires BookOk(b, s.inventories, s.nextId)
    ensures RunsFit(s.runs, s.log + es)
  {
    hide Chronicle;
    forall r | r in s.runs
      ensures RunFits(r, s.log + es)
    {
      assert RunOk(r, s.log, b, s.inventories, s.nextId);
      assert RunFits(r, s.log);
      forall e | e in es
        ensures !Mentions(e.body, r.orderId) && !e.body.AccountCreated?
        ensures r.message.command.CreateInventory? ==> e.stream != r.streamId
      {
        assert EntryOk(e.corr, b[e.corr], s.inventories, s.nextId);
        assert Created(s.log, b[e.corr].order.inventoryId);
      }
      OthersStillFit(r, s.log, es);
    }
  }

  // ---- Every step ----

  /** The book's orders are about the same inventories, or about one that is there. */
  lemma BookStaysCreated(log: seq<Event>, es: seq<Event>, b: Book, b': Book)
    requires forall c :: c in b ==> Created(log, b[c].order.inventoryId)
    requires forall c :: c in b' ==>
      if c in b then b'[c].order == b[c].order else Created(log, b'[c].order.inventoryId)
    ensures forall c :: c in b' ==> Created(log + es, b'[c].order.inventoryId)
  {
    forall c | c in b'
      ensures Created(log + es, b'[c].order.inventoryId)
    {
      CreatedGrows(log, es, b'[c].order.inventoryId);
    }
  }

  lemma RowsStayCreated(log: seq<Event>, es: seq<Event>, rows: map<Id, Row>)
    requires forall id :: id in rows ==> Created(log, id)
    ensures forall id :: id in rows ==> Created(log + es, id)
  {
    forall id | id in rows
      ensures Created(log + es, id)
    {
      CreatedGrows(log, es, id);
    }
  }

  /** An event that mentions an order id belongs to that order. */
  lemma MentionedByItsOrder(log: seq<Event>, b: Book, inventories: set<Id>, nextId: nat, e: Event, orderId: Id)
    requires LogOk(log, b) && BookOk(b, inventories, nextId) && e in log && Mentions(e.body, orderId)
    ensures e.corr in b && b[e.corr].order.id == orderId && |orderId| <= nextId
    ensures e.body.OrderCreated? ==> e == b[e.corr].placed
    ensures e.body.RollbackOrderCreated? ==> RolledBack(log, e.corr)
  {
    var c := e.corr;
    FilterMembers(log, (x: Event) => InAccountPart(x, c));
    assert e in AccountPart(log, c);
    assert AccountSide(log, c, b[c]);
    assert EntryOk(c, b[c], inventories, nextId);
  }

  lemma FreshIdsAreNew(s: System, b: Book, base: nat)
    requires LogOk(s.log, b) && BookOk(b, s.inventories, s.nextId) && StreamsOk(s.log, s.inventories, s.nextId)
    requires s.nextId <= base
    ensures Unused(s.log, Uuid(base + 1)) && Unopened(s.log, Uuid(base + 1)) && NewOrderId(s.log, Uuid(base + 2))
  {
    forall e, id | e in s.log && Mentions(e.body, id)
      ensures |id| <= s.nextId
    {
      MentionedByItsOrder(s.log, b, s.inventories, s.nextId, e, id);
    }
  }

  lemma RequestKeepsHistory(s: System, b: Book, c: Command)
    requires Enabled(s, Request(c))
    requires Inv(s, b)
    requires History(s, b)
    ensures History(Accept(s, c), b)
  {
    hide BookOk, LogOk, StreamsOk, DueOk, WorkOk, CompensationOwed, RegistryOk, WorkerOk, Chronicle, Uuid;
    var s' := Accept(s, c);
    var base := Max(s.nextId, Mentioned(c));
    FreshIdsAreNew(s, b, base);
    var r := Start(s, Message(c, Uuid(base)), Uuid(base + 1), Uuid(base + 2));
    assert s'.runs == s.runs + [r];
    forall x | x in s.runs
      ensures x.streamId != r.streamId
    {
      assert RunOk(x, s.log, b, s.inventories, s.nextId);
    }
  }

  lemma FinishTrack(s: System, b: Book, i: nat, nameTaken: bool)
    requires i < |s.runs| && External(s.runs[i].message.command)
    ensures var b' := Track(s, b, Finish(i, nameTaken));
            if s.runs[i].message.command.CreateOrder? && Decide(s.runs[i], nameTaken, s.nextId).Commit? then
              var es := Outcome(Decide(s.runs[i], nameTaken, s.nextId));
              && |es| == 2 && es[0].body.OrderCreated? && s.runs[i].row.Some?
              && es[0].body.order.inventoryId == s.runs[i].message.command.inventoryId
              && b' == b[s.runs[i].message.corr := Entry(es[0].body.order, es[0], es[1], Placed, false)]
            else b' == b
  {
    hide Decide;
    RunAppends(s.runs[i], nameTaken, s.nextId);
  }

  lemma RunIsExternal(s: System, b: Book, i: nat)
    requires i < |s.runs| && RunsOk(s.runs, s.log, b, s.inventories, s.nextId)
    ensures External(s.runs[i].message.command) && s.runs[i].message.corr !in b
  {
    assert RunOk(s.runs[i], s.log, b, s.inventories, s.nextId);
  }

  lemma FinishKeepsHistory(s: System, b: Book, i: nat, nameTaken: bool, s': System, b': Book)
    requires i < |s.runs| && s' == Step(s, Finish(i, nameTaken)) && b' == Track(s, b, Finish(i, nameTaken))
    requires Inv(s, b)
    requires History(s, b)
    ensures History(s', b')
  {
    hide BookOk, LogOk, StreamsOk, RunsOk, DueOk, WorkOk, CompensationOwed, RegistryOk, WorkerOk, Chronicle, RunsFit,
      Decide, Step, Track, FromRun, Created;
    var r := s.runs[i];
    var es := Outcome(Decide(r, nameTaken, s.nextId));
    NoRollbackForUnused(s, b, i);
    FinishStep(s, i, nameTaken);
    RunIsExternal(s, b, i);
    RunFitsIn(s, i);
    RunKeepsChronicle(r, nameTaken, s.nextId, s.log);
    RunAppends(r, nameTaken, s.nextId);
    RunsStillFit(s, b, i, es);
    FinishTrack(s, b, i, nameTaken);
    BookStaysCreated(s.log, es, b, b');
    RowsStayCreated(s.log, es, s.rows);
  }

  lemma RunFitsIn(s: System, i: nat)
    requires i < |s.runs| && RunsFit(s.runs, s.log)
    ensures RunFits(s.runs[i], s.log)
    ensures s.runs[i].message.command.CreateOrder? && s.runs[i].row.Some? ==> Created(s.log, s.runs[i].message.command.inventoryId)
  {
  }

  lemma FinishCommandKeepsHistory(s: System, b: Book, s': System, b': Book)
    requires s.worker.Some? && s' == Step(s, FinishCommand) && b' == Track(s, b, FinishCommand)
    requires Inv(s, b)
    requires History(s, b)
    ensures History(s', b')
  {
    hide BookOk, LogOk, StreamsOk, RunsOk, DueOk, WorkOk, CompensationOwed, RegistryOk, WorkerOk, Chronicle, RunsFit,
      Decide, Step, Sagas.RollbackMessages, FromWorker, Created;
    var es := Outcome(Decide(s.worker.value, false, s.nextId));
    FinishCommandStep(s);
    WorkerAppends(s, b);
    WorkerKeepsChronicle(s, b);
    RunsFitWorker(s, b, es);
    BookStaysCreated(s.log, es, b, b');
    RowsStayCreated(s.log, es, s.rows);
  }

  /** What is removed was created. */
  lemma {:induction false} RemovedWasCreated(log: seq<Event>, e: Event)
    requires Chronicle(log) && e in log && (e.body.InventoryRemoved? || e.body.InventoryCreated?)
    ensures Created(log, e.stream)
  {
    var front, last := log[..|log| - 1], log[|log| - 1];
    assert log == front + [last];
    if e == last && e.body.InventoryRemoved? {
      CreatedGrows(front, [last], e.stream);
    } else if e.body.InventoryRemoved? {
      RemovedWasCreated(front, e);
      CreatedGrows(front, [last], e.stream);
    }
  }

  lemma SettleKeepsHistory(s: System, b: Book, rejected: bool, s': System, b': Book)
    requires Enabled(s, Settle(rejected)) && s' == Step(s, Settle(rejected)) && b' == Track(s, b, Settle(rejected))
    requires Inv(s, b)
    requires History(s, b)
    ensures History(s', b')
  {
    hide BookOk, LogOk, StreamsOk, RunsOk, DueOk, WorkOk, CompensationOwed, RegistryOk, WorkerOk, Chronicle, RunsFit,
      Step, Created, Sagas.Register, Sagas.RollbackMessages, Due;
    var e := s.delivery.value.event;
    DeliveredIsDue(s, b);
    SettleStep(s, rejected);
    if e.body.InventoryCreated? || e.body.InventoryRemoved? {
      RemovedWasCreated(s.log, e);
    }
  }

  lemma StepKeepsHistory(s: System, b: Book, l: Label, s': System, b': Book)
    requires Enabled(s, l) && s' == Step(s, l) && b' == Track(s, b, l)
    requires Inv(s, b)
    requires History(s, b)
    ensures History(s', b')
  {
    hide Inv, Accept, Decide, SettleEvent, Conclude, Start, Chronicle, RunsFit, Created;
    match l
    case Request(c) => RequestKeepsHistory(s, b, c);
    case Finish(i, nameTaken) => FinishKeepsHistory(s, b, i, nameTaken, s', b');
    case FinishCommand => FinishCommandKeepsHistory(s, b, s', b');
    case Settle(rejected) => SettleKeepsHistory(s, b, rejected, s', b');
    case _ =>
  }

  lemma {:induction false} ReachableHistory(ls: seq<Label>)
    ensures Inv(After(ls), BookAfter(ls)) && History(After(ls), BookAfter(ls))
  {
    hide Inv, History, Step, Track, Enabled;
    if ls == [] {
      InitialInv();
      InitialHistory();
    } else {
      var front, l := ls[..|ls| - 1], ls[|ls| - 1];
      ReachableHistory(front);
      ReachableInv(ls);
      if Enabled(After(front), l) {
        StepKeepsHistory(After(front), BookAfter(front), l, After(ls), BookAfter(ls));
      }
    }
  }

  lemma InitialHistory()
    ensures History(INIT, map[])
  {
  }
}
