/** Solvency: with correctly signed requests, and as long as no two commands on one stream overlap,
    no balance and no quantity is ever negative. */
module OrderSolvency {
  import opened Wrappers
  import opened Events
  import opened Aggregates
  import opened Messages
  import opened Decisions
  import opened OrderSystem
  import opened OrderInvariant
  import opened OrderPreservation
  import opened OrderRuns
  import opened OrderHistory
  import opened LiveOrders
  import Accounts
  import Inventories
  import Sagas

  function BalanceOf(h: seq<Event>): Option<int> {
    match Replay(Accounts.HANDLERS, h) case Ok(s) => s.balance case Err(_) => None
  }

  function QuantityOf(h: seq<Event>): Option<int> {
    match Replay(Inventories.HANDLERS, h) case Ok(s) => s.quantity case Err(_) => None
  }

  /** Not below zero, where there is a number at all. */
  predicate Sound(x: Option<int>) {
    x.Some? ==> x.value >= 0
  }

  /** A withdrawal may have any sign: it is checked. */
  predicate Signed(c: Command) {
    match c
    case CreateAccount(_, balance) => balance >= 0
    case DepositFunds(_, funds) => funds >= 0
    case CreateInventory(_, quantity, price) => quantity >= 0 && price >= 0
    case CreateOrder(_, _, quantity) => quantity >= 0
    case _ => true
  }

  /** What a handler is about to take is there, on the stream as it is now. */
  predicate Covers(h: seq<Event>, r: Run, d: Decision) {
    d.Commit? ==>
      match r.message.command
      case WithdrawFunds(_, funds) => Sound(Accounts.Add(BalanceOf(h), funds))
      case CreateOrder(_, _, quantity) => r.row.Some? ==> Sound(Accounts.Add(BalanceOf(h), -(r.row.value.price * quantity)))
      case RemoveInventory(_, _, quantity) => Sound(Accounts.Add(QuantityOf(h), -quantity))
      case _ => true
  }

  function StreamOf(log: seq<Event>, r: Run): seq<Event> {
    OfStream(log, Target(r.message.command, r.streamId))
  }

  predicate CoveredStep(s: System, l: Label) {
    match l
    case Finish(i, nameTaken) =>
      i < |s.runs| ==> Covers(StreamOf(s.log, s.runs[i]), s.runs[i], Decide(s.runs[i], nameTaken, s.nextId))
    case FinishCommand =>
      s.worker.Some? ==> Covers(StreamOf(s.log, s.worker.value), s.worker.value, Decide(s.worker.value, false, s.nextId))
    case _ => true
  }

  predicate CoveredRun(ls: seq<Label>) {
    ls == [] || (CoveredRun(ls[..|ls| - 1]) && CoveredStep(After(ls[..|ls| - 1]), ls[|ls| - 1]))
  }

  predicate SignedRun(ls: seq<Label>) {
    forall l :: l in ls && l.Request? ==> Signed(l.command)
  }

  /** Nothing was committed to the stream since the handler read it. */
  predicate Current(r: Run, log: seq<Event>) {
    r.snapshot == StreamOf(log, r)
  }

  /** No two commands on a stream overlap. */
  predicate SerialStep(s: System, l: Label) {
    match l
    case Finish(i, _) => i < |s.runs| ==> Current(s.runs[i], s.log)
    case FinishCommand => s.worker.Some? ==> Current(s.worker.value, s.log)
    case _ => true
  }

  predicate SerialRun(ls: seq<Label>) {
    ls == [] || (SerialRun(ls[..|ls| - 1]) && SerialStep(After(ls[..|ls| - 1]), ls[|ls| - 1]))
  }

  predicate SignedBody(b: Body) {
    match b
    case InventoryCreated(_, quantity, price) => quantity >= 0 && price >= 0
    case OrderCreated(order) => order.cost >= 0
    case _ => true
  }

  ghost predicate SignedLog(h: seq<Event>) {
    forall e :: e in h ==> SignedBody(e.body)
  }

  predicate SignedRow(row: Option<Row>) {
    row.Some? ==> row.value.price >= 0
  }

  ghost predicate StreamsSolvent(log: seq<Event>) {
    forall id :: Sound(BalanceOf(OfStream(log, id))) && Sound(QuantityOf(OfStream(log, id)))
  }

  ghost predicate Solvent(s: System) {
    && StreamsSolvent(s.log) && SignedLog(s.log)
    && (forall id :: id in s.rows ==> s.rows[id].price >= 0)
    && (forall r :: r in s.runs ==> Signed(r.message.command) && SignedRow(r.row))
    && (s.delivery.Some? ==> SignedLog(s.delivery.value.snapshot))
  }

  // ---- One decision ----

  lemma PushReplay<S>(t: Handlers<S>, h: seq<Event>, e: Event)
    ensures Replay(t, h + [e]) == match Replay(t, h) case Ok(s) => t.apply(s, e.body) case Err(f) => Err(f)
  {
    assert (h + [e])[..|h|] == h;
  }

  predicate Fine(h: seq<Event>) {
    Sound(BalanceOf(h)) && Sound(QuantityOf(h))
  }

  /** Events that can never make anything negative. */
  predicate Harmless(b: Body) {
    match b
    case AccountCreated(_, balance) => balance >= 0
    case FundsDeposited(funds) => funds >= 0
    case FundsWithdrawn(_) => false
    case RollbackFundsWithdrawn(funds) => funds <= 0
    case InventoryCreated(_, quantity, _) => quantity >= 0
    case InventoryRemoved(_) => false
    case _ => true
  }

  lemma HarmlessIsFine(h: seq<Event>, e: Event)
    requires Fine(h) && Harmless(e.body)
    ensures Fine(h + [e])
  {
    PushReplay(Accounts.HANDLERS, h, e);
    PushReplay(Inventories.HANDLERS, h, e);
  }

  lemma WithdrawalIsFine(h: seq<Event>, e: Event)
    requires Sound(QuantityOf(h)) && e.body.FundsWithdrawn?
    ensures Fine(h + [e]) <==> Sound(Accounts.Add(BalanceOf(h), e.body.funds))
  {
    PushReplay(Accounts.HANDLERS, h, e);
    PushReplay(Inventories.HANDLERS, h, e);
  }

  lemma RemovalIsFine(h: seq<Event>, e: Event)
    requires Sound(BalanceOf(h)) && e.body.InventoryRemoved?
    ensures Fine(h + [e]) <==> Sound(Accounts.Add(QuantityOf(h), -e.body.quantity))
  {
    PushReplay(Accounts.HANDLERS, h, e);
    PushReplay(Inventories.HANDLERS, h, e);
  }

  lemma OrderIsFine(h: seq<Event>, e: Event, e': Event)
    requires Fine(h) && e.body.OrderCreated? && e'.body.FundsWithdrawn?
    ensures Fine(h + [e, e']) <==> Sound(Accounts.Add(BalanceOf(h), e'.body.funds))
  {
    HarmlessIsFine(h, e);
    PushReplay(Accounts.HANDLERS, h, e);
    WithdrawalIsFine(h + [e], e');
    assert h + [e] + [e'] == h + [e, e'];
  }

  lemma RunSigns(r: Run, nameTaken: bool, uuid: nat)
    requires External(r.message.command) && Signed(r.message.command) && SignedRow(r.row)
    ensures SignedLog(Outcome(Decide(r, nameTaken, uuid)))
  {
    if r.message.command.CreateOrder? && r.row.Some? {
      SignedCost(r.row.value.price, r.message.command.quantity);
    }
  }

  /** What a public command appends keeps a stream solvent exactly when the stream covers it. */
  lemma RunIsFine(h: seq<Event>, r: Run, nameTaken: bool, uuid: nat)
    requires External(r.message.command) && Signed(r.message.command) && Fine(h)
    ensures Fine(h + Outcome(Decide(r, nameTaken, uuid))) <==> Covers(h, r, Decide(r, nameTaken, uuid))
  {
    hide Fine, BalanceOf, QuantityOf, Replay;
    RunAppends(r, nameTaken, uuid);
    var es := Outcome(Decide(r, nameTaken, uuid));
    FineParts(h);
    if |es| == 0 {
      assert h + es == h;
    } else if |es| == 1 {
      assert es == [es[0]];
      if es[0].body.FundsWithdrawn? {
        WithdrawalIsFine(h, es[0]);
      } else {
        HarmlessIsFine(h, es[0]);
      }
    } else {
      assert es == [es[0], es[1]];
      OrderIsFine(h, es[0], es[1]);
    }
  }

  lemma FineParts(h: seq<Event>)
    ensures Fine(h) <==> Sound(BalanceOf(h)) && Sound(QuantityOf(h))
  {
  }

  lemma SignedCost(price: int, quantity: int)
    requires price >= 0 && quantity >= 0
    ensures price * quantity >= 0
  {
  }

  lemma RemovalRunIsFine(h: seq<Event>, r: Run, uuid: nat)
    requires r.message.command.RemoveInventory? && Fine(h)
    ensures SignedLog(Outcome(Decide(r, false, uuid)))
    ensures Fine(h + Outcome(Decide(r, false, uuid))) <==> Covers(h, r, Decide(r, false, uuid))
  {
    hide Fine, Decide, BalanceOf, QuantityOf;
    RemovalDecision(r, uuid);
    FineParts(h);
    var es := Outcome(Decide(r, false, uuid));
    if |es| == 0 {
      assert h + es == h;
    } else {
      assert es == [es[0]];
      RemovalIsFine(h, es[0]);
    }
  }

  /** A rollback checks nothing; it gives money back because the order's cost was not negative. */
  lemma RollbackRunIsFine(s: System, b: Book, h: seq<Event>)
    requires s.worker.Some? && s.worker.value.message.command.RollbackAccount?
    requires Fine(h) && SignedLog(s.log)
    requires Inv(s, b)
    ensures var es := Outcome(Decide(s.worker.value, false, s.nextId));
            Fine(h + es) && SignedLog(es)
  {
    hide BookOk, LogOk, StreamsOk, RunsOk, DueOk, WorkOk, CompensationOwed, RegistryOk, WorkerOk, Decide, Fine, RolledBack;
    var r := s.worker.value;
    var c := r.message.command.correlationId;
    WorkerRollback(s, b);
    if RolledBack(s.log, c) {
      assert h + [] == h;
    } else {
      PlacedIsOnStream(s.log, b, s.inventories, s.nextId, c);
      OrderAccountIsProper(b, s.inventories, s.nextId, c);
      OfStreamMembers(s.log, b[c].order.accountId);
      assert SignedBody(b[c].placed.body);
      var e := Event(s.nextId, b[c].order.accountId, c, RollbackFundsWithdrawn(-b[c].order.cost));
      var e' := Event(s.nextId + 1, b[c].order.accountId, c, RollbackOrderCreated(b[c].order.id));
      HarmlessIsFine(h, e);
      HarmlessIsFine(h + [e], e');
      assert h + [e] + [e'] == h + [e, e'];
    }
  }

  /** A handler that read the stream as it is now has checked exactly what has to be there. */
  lemma CurrentCovers(r: Run, nameTaken: bool, uuid: nat)
    ensures Covers(r.snapshot, r, Decide(r, nameTaken, uuid))
  {
    hide ReplayFrom;
  }

  // ---- One step ----

  lemma StreamsStaySolvent(log: seq<Event>, es: seq<Event>, id: Id)
    requires StreamsSolvent(log) && (forall e :: e in es ==> e.stream == id)
    ensures StreamsSolvent(log + es) <==> Fine(OfStream(log, id) + es)
  {
    hide BalanceOf, QuantityOf;
    forall d
      ensures OfStream(log + es, d) == if d == id then OfStream(log, id) + es else OfStream(log, d)
    {
      FilterAppend(log, es, (e: Event) => e.stream == d);
      if d == id {
        OfStreamAll(es, id);
      } else {
        OfStreamNone(es, d);
        assert OfStream(log, d) + [] == OfStream(log, d);
      }
    }
    hide OfStream;
    if StreamsSolvent(log + es) {
      StreamIsSolvent(log + es, id);
    }
    assert forall d :: d != id ==> Fine(OfStream(log, d));
  }

  lemma FinishStaysSolvent(s: System, b: Book, i: nat, nameTaken: bool, s': System)
    requires i < |s.runs| && s' == Step(s, Finish(i, nameTaken))
    requires Inv(s, b)
    requires Solvent(s)
    ensures Solvent(s') <==> CoveredStep(s, Finish(i, nameTaken))
    ensures StreamsSolvent(s'.log) <==> CoveredStep(s, Finish(i, nameTaken))
  {
    hide BookOk, LogOk, StreamsOk, RunsOk, DueOk, WorkOk, CompensationOwed, RegistryOk, WorkerOk, Decide, Step, StreamsSolvent,
      SignedLog, Covers;
    var r := s.runs[i];
    var es := Outcome(Decide(r, nameTaken, s.nextId));
    NoRollbackForUnused(s, b, i);
    FinishStep(s, i, nameTaken);
    RunIsExternal(s, b, i);
    assert r in s.runs;
    RunAppends(r, nameTaken, s.nextId);
    RunSigns(r, nameTaken, s.nextId);
    SignedAppend(s.log, es);
    StreamIsSolvent(s.log, Target(r.message.command, r.streamId));
    RunIsFine(StreamOf(s.log, r), r, nameTaken, s.nextId);
    StreamsStaySolvent(s.log, es, Target(r.message.command, r.streamId));
    RemoveAtMembers(s.runs, i);
  }

  lemma SignedAppend(log: seq<Event>, es: seq<Event>)
    requires SignedLog(log) && SignedLog(es)
    ensures SignedLog(log + es)
  {
  }

  lemma StreamIsSolvent(log: seq<Event>, id: Id)
    requires StreamsSolvent(log)
    ensures Fine(OfStream(log, id))
  {
  }

  lemma WorkerTarget(s: System, b: Book)
    requires s.worker.Some?
    requires Inv(s, b)
    ensures forall e :: e in Outcome(Decide(s.worker.value, false, s.nextId)) ==>
      e.stream == Target(s.worker.value.message.command, s.worker.value.streamId)
  {
    hide BookOk, LogOk, StreamsOk, RunsOk, DueOk, WorkOk, CompensationOwed, RegistryOk, WorkerOk, Work, Decide, RolledBack;
    WorkerIsPublished(s, b);
    if s.worker.value.message.command.RemoveInventory? {
      RemovalDecision(s.worker.value, s.nextId);
    } else {
      WorkerIsPending(s);
      RollbackIfPending(Work(s), b, s.worker.value.message);
      WorkerRollback(s, b);
    }
  }

  lemma FinishCommandStaysSolvent(s: System, b: Book, s': System)
    requires s.worker.Some? && s' == Step(s, FinishCommand)
    requires Inv(s, b)
    requires Solvent(s)
    ensures Solvent(s') <==> CoveredStep(s, FinishCommand)
    ensures StreamsSolvent(s'.log) <==> CoveredStep(s, FinishCommand)
  {
    hide BookOk, LogOk, StreamsOk, RunsOk, DueOk, WorkOk, CompensationOwed, RegistryOk, WorkerOk, Work, Decide, Step,
      Sagas.RollbackMessages, StreamsSolvent, SignedLog;
    var r := s.worker.value;
    var es := Outcome(Decide(r, false, s.nextId));
    FinishCommandStep(s);
    WorkerIsPublished(s, b);
    StreamIsSolvent(s.log, Target(r.message.command, r.streamId));
    if r.message.command.RemoveInventory? {
      RemovalRunIsFine(StreamOf(s.log, r), r, s.nextId);
    } else {
      RollbackRunIsFine(s, b, StreamOf(s.log, r));
    }
    SignedAppend(s.log, es);
    WorkerTarget(s, b);
    StreamsStaySolvent(s.log, es, Target(r.message.command, r.streamId));
  }

  lemma {:induction false} PriceIsSigned(h: seq<Event>)
    requires SignedLog(h) && Replay(Inventories.HANDLERS, h).Ok?
    ensures Sound(Replay(Inventories.HANDLERS, h).value.price)
  {
    if h != [] {
      assert h[|h| - 1] in h;
      assert forall e :: e in h[..|h| - 1] ==> e in h;
      PriceIsSigned(h[..|h| - 1]);
    }
  }

  lemma SettleStaysSolvent(s: System, rejected: bool, s': System)
    requires Enabled(s, Settle(rejected)) && s' == Step(s, Settle(rejected))
    requires Solvent(s)
    ensures Solvent(s')
  {
    hide StreamsSolvent, Step, Sagas.Register, Sagas.RollbackMessages;
    SettleStep(s, rejected);
    if Replay(Inventories.HANDLERS, s.delivery.value.snapshot).Ok? {
      PriceIsSigned(s.delivery.value.snapshot);
    }
  }

  lemma OtherStepsStaySolvent(s: System, l: Label, s': System)
    requires !l.Finish? && !l.FinishCommand? && !l.Settle? && (l.Request? ==> Signed(l.command))
    requires Enabled(s, l) && s' == Step(s, l)
    requires Solvent(s)
    ensures Solvent(s')
  {
    hide StreamsSolvent;
    match l
    case TakeEvent(i) =>
      OfStreamMembers(s.log, s.events[i].stream);
    case _ =>
  }

  lemma StepStaysSolvent(s: System, b: Book, l: Label, s': System)
    requires Enabled(s, l) && s' == Step(s, l) && (l.Request? ==> Signed(l.command))
    requires Inv(s, b)
    requires Solvent(s)
    ensures Solvent(s') <==> CoveredStep(s, l)
    ensures StreamsSolvent(s'.log) <==> CoveredStep(s, l)
  {
    hide Inv, Step, Covers, StreamsSolvent, Enabled;
    match l
    case Finish(i, nameTaken) =>
      RunInRange(s, i, nameTaken);
      FinishStaysSolvent(s, b, i, nameTaken, s');
    case FinishCommand =>
      WorkerRuns(s);
      FinishCommandStaysSolvent(s, b, s');
    case Settle(rejected) => SettleStaysSolvent(s, rejected, s');
    case _ => OtherStepsStaySolvent(s, l, s');
  }

  lemma RunInRange(s: System, i: nat, nameTaken: bool)
    requires Enabled(s, Finish(i, nameTaken))
    ensures i < |s.runs|
  {
  }

  lemma WorkerRuns(s: System)
    requires Enabled(s, FinishCommand)
    ensures s.worker.Some?
  {
  }

  lemma InitialSolvent()
    ensures Solvent(INIT)
  {
    forall id
      ensures Fine(OfStream([], id))
    {
      assert OfStream([], id) == [];
    }
  }

  lemma {:induction false} CoveredRunsStaySolvent(ls: seq<Label>)
    requires SignedRun(ls) && CoveredRun(ls)
    ensures Solvent(After(ls))
  {
    hide Inv, Solvent, Step, CoveredStep;
    if ls == [] {
      InitialSolvent();
    } else {
      var front, l := ls[..|ls| - 1], ls[|ls| - 1];
      assert l in ls && forall x :: x in front ==> x in ls;
      CoveredRunsStaySolvent(front);
      ReachableInv(front);
      if Enabled(After(front), l) {
        StepStaysSolvent(After(front), BookAfter(front), l, After(ls));
      }
    }
  }

  /** A label that is not enabled asks for nothing. */
  lemma DisabledIsCovered(s: System, l: Label)
    requires !Enabled(s, l)
    ensures CoveredStep(s, l)
  {
  }

  /** After every step of the run: no stream replays to a balance or a quantity below zero. */
  ghost predicate NeverNegative(ls: seq<Label>) {
    ls == [] ||
      (&& NeverNegative(ls[..|ls| - 1])
       && forall id ::
            var account, inventory := Replay(Accounts.HANDLERS, OfStream(After(ls).log, id)), Replay(Inventories.HANDLERS, OfStream(After(ls).log, id));
            && (account.Ok? && account.value.balance.Some? ==> account.value.balance.value >= 0)
            && (inventory.Ok? && inventory.value.quantity.Some? ==> inventory.value.quantity.value >= 0))
  }

  lemma SolventSaysSo(log: seq<Event>)
    ensures StreamsSolvent(log) <==> forall id ::
      var account, inventory := Replay(Accounts.HANDLERS, OfStream(log, id)), Replay(Inventories.HANDLERS, OfStream(log, id));
      && (account.Ok? && account.value.balance.Some? ==> account.value.balance.value >= 0)
      && (inventory.Ok? && inventory.value.quantity.Some? ==> inventory.value.quantity.value >= 0)
  {
    hide Replay, OfStream;
    if StreamsSolvent(log) {
      forall id
        ensures Fine(OfStream(log, id))
      {
      }
    } else {
      var id :| !Fine(OfStream(log, id));
    }
  }

  /** In a run with correctly signed requests no account replays to a negative balance and no
      inventory to a negative quantity after any step, exactly when every commit of a withdrawal,
      an order or a removal finds what it takes on the stream it is appended to, whatever overlaps. */
  lemma {:induction false} SolventIffCovered(ls: seq<Label>)
    requires SignedRun(ls)
    ensures NeverNegative(ls) <==> CoveredRun(ls)
  {
    hide Inv, Solvent, Step, CoveredStep, StreamsSolvent;
    if ls != [] {
      var front, l := ls[..|ls| - 1], ls[|ls| - 1];
      assert l in ls && forall x :: x in front ==> x in ls;
      SolventIffCovered(front);
      SolventSaysSo(After(ls).log);
      if CoveredRun(front) {
        CoveredRunsStaySolvent(front);
        ReachableInv(front);
        if Enabled(After(front), l) {
          StepStaysSolvent(After(front), BookAfter(front), l, After(ls));
        } else {
          DisabledIsCovered(After(front), l);
          SolventIsSolvent(After(front));
        }
      }
    }
  }

  lemma SolventIsSolvent(s: System)
    requires Solvent(s)
    ensures StreamsSolvent(s.log)
  {
  }

  /** Commands that run one at a time on each stream are covered: the handlers check it. */
  lemma {:induction false} SerialRunsAreCovered(ls: seq<Label>)
    requires SerialRun(ls)
    ensures CoveredRun(ls)
  {
    hide After, Decide, Covers;
    if ls != [] {
      var s, l := After(ls[..|ls| - 1]), ls[|ls| - 1];
      SerialRunsAreCovered(ls[..|ls| - 1]);
      match l
      case Finish(i, nameTaken) =>
        if i < |s.runs| {
          CurrentCovers(s.runs[i], nameTaken, s.nextId);
        }
      case FinishCommand =>
        if s.worker.Some? {
          CurrentCovers(s.worker.value, false, s.nextId);
        }
      case _ =>
    }
  }

  /** Serial runs go on serially with any request that is signed correctly and runs to its end before
      anything else happens, and with any published command that does. */
  lemma UndisturbedStaysSerial(ls: seq<Label>, s: System, c: Command, nameTaken: bool)
    requires s == After(ls) && SerialRun(ls) && SignedRun(ls)
    requires c.CreateAccount? ==> c.balance >= 0
    requires c.DepositFunds? ==> c.funds >= 0
    requires c.CreateInventory? ==> c.quantity >= 0 && c.price >= 0
    requires c.CreateOrder? ==> c.quantity >= 0
    ensures var ls' := ls + [Request(c)] + [Finish(|s.runs|, nameTaken)];
            SerialRun(ls') && SignedRun(ls')
    ensures s.worker.None? ==> forall i :: SerialRun(ls + [TakeCommand(i)] + [FinishCommand])
  {
    hide After, OfStream;
    var asked := ls + [Request(c)];
    assert asked[..|ls|] == ls;
    PushAfter(ls, Request(c));
    assert (asked + [Finish(|s.runs|, nameTaken)])[..|asked|] == asked;
    forall i | s.worker.None?
      ensures SerialRun(ls + [TakeCommand(i)] + [FinishCommand])
    {
      var taken := ls + [TakeCommand(i)];
      assert taken[..|ls|] == ls;
      PushAfter(ls, TakeCommand(i));
      assert (taken + [FinishCommand])[..|taken|] == taken;
    }
  }

  lemma PushAfter(ls: seq<Label>, l: Label)
    ensures After(ls + [l]) == Next(After(ls), l)
  {
    assert (ls + [l])[..|ls|] == ls;
  }

  /** After every commit of a serial run, those of rollbacks included, no account replays to a
      negative balance. */
  lemma BalanceSolvency(ls: seq<Label>, id: Id)
    requires SignedRun(ls) && SerialRun(ls)
    ensures var account := Replay(Accounts.HANDLERS, OfStream(After(ls).log, id));
            account.Ok? && account.value.balance.Some? ==> account.value.balance.value >= 0
  {
    hide After, SerialRun, CoveredRun, SignedRun, Replay;
    SerialRunsAreCovered(ls);
    CoveredRunsStaySolvent(ls);
    StreamIsSolvent(After(ls).log, id);
  }

  /** Nor does an inventory replay to a negative quantity. */
  lemma QuantitySolvency(ls: seq<Label>, id: Id)
    requires SignedRun(ls) && SerialRun(ls)
    ensures var inventory := Replay(Inventories.HANDLERS, OfStream(After(ls).log, id));
            inventory.Ok? && inventory.value.quantity.Some? ==> inventory.value.quantity.value >= 0
  {
    hide After, SerialRun, CoveredRun, SignedRun, Replay;
    SerialRunsAreCovered(ls);
    CoveredRunsStaySolvent(ls);
    StreamIsSolvent(After(ls).log, id);
  }

  /** And no listed order has a negative cost. */
  lemma CostSolvency(ls: seq<Label>, id: Id, o: Order)
    requires SignedRun(ls) && SerialRun(ls) && o in Accounts.Orders(OfStream(After(ls).log, id))
    ensures o.cost >= 0
  {
    hide After, SerialRun, CoveredRun, SignedRun;
    SerialRunsAreCovered(ls);
    CoveredRunsStaySolvent(ls);
    var h := OfStream(After(ls).log, id);
    OfStreamMembers(After(ls).log, id);
    Accounts.OrderHasEvent(h, o);
    var e :| e in h && e.body == OrderCreated(o);
    assert SignedBody(e.body);
  }
}
