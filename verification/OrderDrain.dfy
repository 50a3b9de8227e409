/** Draining terminates: without new requests every step of the order system uses up pending work,
    rejected deliveries included, and the system can only stop where nothing is pending. */
module OrderDrain {
  import opened Wrappers
  import opened Events
  import opened Aggregates
  import opened Messages
  import opened Decisions
  import opened OrderSystem
  import opened OrderInvariant
  import opened OrderPreservation
  import opened OrderRuns
  import opened OrderHistory
  import opened OrderAtomicity
  import Sagas

  function Weigh<T>(s: seq<T>, w: T -> nat): nat {
    if s == [] then 0 else Weigh(s[..|s| - 1], w) + w(s[|s| - 1])
  }

  lemma {:induction false} WeighAppend<T>(s: seq<T>, t: seq<T>, w: T -> nat)
    ensures Weigh(s + t, w) == Weigh(s, w) + Weigh(t, w)
  {
    if t == [] {
      assert s + t == s;
    } else {
      WeighAppend(s, t[..|t| - 1], w);
      assert (s + t)[..|s + t| - 1] == s + t[..|t| - 1];
    }
  }

  lemma WeighOne<T>(x: T, w: T -> nat)
    ensures Weigh([x], w) == w(x)
  {
    assert [x][..0] == [];
  }

  lemma WeighRemoveAt<T>(s: seq<T>, i: nat, w: T -> nat)
    requires i < |s|
    ensures Weigh(RemoveAt(s, i), w) == Weigh(s, w) - w(s[i])
  {
    hide Weigh;
    assert s == s[..i] + ([s[i]] + s[i + 1..]);
    WeighAppend(s[..i], [s[i]] + s[i + 1..], w);
    WeighAppend([s[i]], s[i + 1..], w);
    WeighAppend(s[..i], s[i + 1..], w);
    WeighOne(s[i], w);
  }

  /** A command with the worker. A rollback with a correlation may send one more without. */
  function MessageWeight(m: Message): nat {
    if m.command.RemoveInventory? then 9 else if m.corr != UNSET then 3 else 1
  }

  function Queued(m: Message): nat {
    MessageWeight(m) + 1
  }

  function Boxed(m: Message): nat {
    MessageWeight(m) + 2
  }

  /** An event in delivery. */
  function EventWeight(e: Event): nat {
    if e.body.OrderCreated? then 13 else 7
  }

  function Waiting(e: Event): nat {
    EventWeight(e) + 1
  }

  function DeliveryWeight(d: Option<Delivery>): nat {
    match d
    case None => 0
    case Some(d) => if d.settled then Weigh(d.outbox, Boxed) + 1 else EventWeight(d.event)
  }

  function WorkerWeight(r: Option<Run>): nat {
    match r case None => 0 case Some(r) => MessageWeight(r.message)
  }

  /** The orders whose two compensating events are still to come, if they ever do. */
  function Unrolled(log: seq<Event>, b: Book): set<Id> {
    set c | c in b && !RolledBack(log, c)
  }

  function Measure(s: System, b: Book): nat {
    16 * |Unrolled(s.log, b)| + Weigh(s.events, Waiting) + Weigh(s.commands, Queued)
      + WorkerWeight(s.worker) + DeliveryWeight(s.delivery) + 39 * |s.runs|
  }

  // ---- The orders left to roll back ----

  lemma UnrolledSame(log: seq<Event>, log': seq<Event>, b: Book, b': Book)
    requires b'.Keys == b.Keys && forall c :: c in b ==> AccountPart(log', c) == AccountPart(log, c)
    ensures Unrolled(log', b') == Unrolled(log, b)
  {
  }

  lemma UnrolledOthers(log: seq<Event>, es: seq<Event>, b: Book)
    requires forall e :: e in es ==> e.corr !in b
    ensures Unrolled(log + es, b) == Unrolled(log, b)
  {
    forall c | c in b
      ensures AccountPart(log + es, c) == AccountPart(log, c)
    {
      PartsOfOthers(log, es, c);
    }
  }

  lemma UnrolledPlaced(log: seq<Event>, es: seq<Event>, b: Book, c: Id, e: Entry)
    requires c !in b && forall x :: x in es ==> x.corr == c
    ensures |Unrolled(log + es, b[c := e])| <= |Unrolled(log, b)| + 1
  {
    UnrolledOthers(log, es, b);
    assert Unrolled(log + es, b[c := e]) <= Unrolled(log, b) + {c};
    SubsetSize(Unrolled(log + es, b[c := e]), Unrolled(log, b) + {c});
  }

  lemma {:induction false} SubsetSize(a: set<Id>, b: set<Id>)
    requires a <= b
    ensures |a| <= |b|
  {
    assert b == a + (b - a);
  }

  lemma UnrolledUndone(log: seq<Event>, es: seq<Event>, b: Book, c: Id)
    requires c in b && !RolledBack(log, c) && RolledBack(log + es, c) && forall x :: x in es ==> x.corr == c
    ensures |Unrolled(log + es, b)| == |Unrolled(log, b)| - 1
  {
    forall d | d in b && d != c
      ensures AccountPart(log + es, d) == AccountPart(log, d)
    {
      PartsOfOthers(log, es, d);
    }
    assert Unrolled(log + es, b) == Unrolled(log, b) - {c};
  }

  lemma UnrolledRemoval(log: seq<Event>, e: Event, b: Book, b': Book)
    requires e.body.InventoryRemoved? && b'.Keys == b.Keys
    ensures Unrolled(log + [e], b') == Unrolled(log, b)
  {
    forall c | c in b
      ensures AccountPart(log + [e], c) == AccountPart(log, c)
    {
      PartsAppend(log, [e], c);
      FilterNone([e], (x: Event) => InAccountPart(x, c));
    }
    UnrolledSame(log, log + [e], b, b');
  }

  // ---- One step ----

  predicate Internal(l: Label) {
    !l.Request?
  }

  /** The end of a run from outside: what it appends, and how far that moves the measure. */
  lemma FinishMeasure(s: System, b: Book, i: nat, es: seq<Event>, b': Book)
    requires i < |s.runs|
    ensures Measure(AfterRun(s, i, es), b') - 16 * |Unrolled(s.log + es, b')|
         == Measure(s, b) - 16 * |Unrolled(s.log, b)| + Weigh(es, Waiting) - 39
  {
    hide Unrolled;
    WeighAppend(s.events, es, Waiting);
  }

  lemma FinishOrderDrains(s: System, b: Book, i: nat, nameTaken: bool, s': System, b': Book)
    requires i < |s.runs| && s' == Step(s, Finish(i, nameTaken)) && b' == Track(s, b, Finish(i, nameTaken))
    requires s.runs[i].message.command.CreateOrder? && Decide(s.runs[i], nameTaken, s.nextId).Commit?
    requires Inv(s, b)
    ensures Measure(s', b') < Measure(s, b)
  {
    hide BookOk, LogOk, StreamsOk, RunsOk, DueOk, WorkOk, CompensationOwed, RegistryOk, WorkerOk, Decide, Step, Unrolled, Measure;
    var r := s.runs[i];
    var es := Decide(r, nameTaken, s.nextId).events;
    NoRollbackForUnused(s, b, i);
    FinishStep(s, i, nameTaken);
    RunIsExternal(s, b, i);
    OrderDecision(r, nameTaken, s.nextId);
    FinishMeasure(s, b, i, es, b');
    UnrolledPlaced(s.log, es, b, r.message.corr, Entry(es[0].body.order, es[0], es[1], Placed, false));
    assert es == [es[0]] + [es[1]];
    WeighAppend([es[0]], [es[1]], Waiting);
    WeighOne(es[0], Waiting);
    WeighOne(es[1], Waiting);
  }

  lemma OrdinaryOutcomeWeight(r: Run, nameTaken: bool, uuid: nat)
    requires External(r.message.command)
    requires !(r.message.command.CreateOrder? && Decide(r, nameTaken, uuid).Commit?)
    ensures Weigh(Outcome(Decide(r, nameTaken, uuid)), Waiting) <= 8
  {
    hide Decide;
    var es := Outcome(Decide(r, nameTaken, uuid));
    RunAppends(r, nameTaken, uuid);
    OrdinaryDecision(r, nameTaken, uuid);
    assert forall k :: 0 <= k < |es| ==> es[k] in es && !OrderBody(es[k].body);
    if |es| == 1 {
      assert es == [es[0]];
      WeighOne(es[0], Waiting);
    }
  }

  lemma FinishOrdinaryDrains(s: System, b: Book, i: nat, nameTaken: bool, s': System)
    requires i < |s.runs| && s' == Step(s, Finish(i, nameTaken))
    requires !(s.runs[i].message.command.CreateOrder? && Decide(s.runs[i], nameTaken, s.nextId).Commit?)
    requires Inv(s, b)
    ensures Measure(s', b) < Measure(s, b)
  {
    hide BookOk, LogOk, StreamsOk, RunsOk, DueOk, WorkOk, CompensationOwed, RegistryOk, WorkerOk, Decide, Step, Unrolled, Measure, OutcomeOk;
    var es := Outcome(Decide(s.runs[i], nameTaken, s.nextId));
    FinishOutcome(s, b, i, nameTaken);
    FinishStep(s, i, nameTaken);
    RunIsExternal(s, b, i);
    OrdinaryOutcomeWeight(s.runs[i], nameTaken, s.nextId);
    FinishMeasure(s, b, i, es, b);
    OutcomeIsOrdinary(s, b, i, es);
    UnrolledOthers(s.log, es, b);
  }

  lemma FinishDrains(s: System, b: Book, i: nat, nameTaken: bool, s': System, b': Book)
    requires i < |s.runs| && s' == Step(s, Finish(i, nameTaken)) && b' == Track(s, b, Finish(i, nameTaken))
    requires Inv(s, b)
    ensures Measure(s', b') < Measure(s, b)
  {
    hide Step, Decide, Inv, Measure;
    if s.runs[i].message.command.CreateOrder? && Decide(s.runs[i], nameTaken, s.nextId).Commit? {
      FinishOrderDrains(s, b, i, nameTaken, s', b');
    } else {
      FinishOrdinaryDrains(s, b, i, nameTaken, s');
    }
  }

  lemma RemoveDrains(s: System, b: Book, s': System, b': Book)
    requires s.worker.Some? && s.worker.value.message.command.RemoveInventory?
    requires s' == Step(s, FinishCommand) && b' == Track(s, b, FinishCommand)
    requires Inv(s, b)
    ensures Measure(s', b') < Measure(s, b)
  {
    hide BookOk, LogOk, StreamsOk, RunsOk, DueOk, WorkOk, CompensationOwed, RegistryOk, WorkerOk, Work, Decide, Step, Unrolled;
    var r := s.worker.value;
    var c := r.message.corr;
    WorkerIsPending(s);
    IssuedIfPending(Work(s), b, r.message);
    FinishCommandStep(s);
    RemovalDecision(r, s.nextId);
    if Decide(r, false, s.nextId).Commit? {
      var e := Event(s.nextId, r.message.command.inventoryId, c, InventoryRemoved(r.message.command.quantity));
      assert Decide(r, false, s.nextId) == Commit([e]);
      assert s'.log == s.log + [e] && s'.events == s.events + [e] && s'.commands == s.commands + [] == s.commands;
      WeighAppend(s.events, [e], Waiting);
      WeighOne(e, Waiting);
      UnrolledRemoval(s.log, e, b, b');
    } else {
      OrderAccountIsProper(b, s.inventories, s.nextId, c);
      RegistryOfOrder(s.sets, b, c);
      var n := RollbackMessage(c, b[c].order, UNSET);
      assert s'.log == s.log + [] == s.log && s'.events == s.events + [] == s.events && s'.commands == s.commands + [n];
      WeighAppend(s.commands, [n], Queued);
      WeighOne(n, Queued);
      UnrolledSame(s.log, s.log, b, b');
    }
  }

  lemma RollbackDrains(s: System, b: Book, s': System)
    requires s.worker.Some? && s.worker.value.message.command.RollbackAccount?
    requires s' == Step(s, FinishCommand)
    requires Inv(s, b)
    ensures Measure(s', b) < Measure(s, b)
  {
    hide BookOk, LogOk, StreamsOk, RunsOk, DueOk, WorkOk, CompensationOwed, RegistryOk, WorkerOk, Work, Decide, Step, Unrolled, RolledBack;
    var m := s.worker.value.message;
    var c := m.command.correlationId;
    WorkerIsPending(s);
    RollbackIfPending(Work(s), b, m);
    FinishCommandStep(s);
    WorkerRollback(s, b);
    UnsetIsNoOrder(b, s.inventories, s.nextId);
    RegistryOfUnset(s.sets, b);
    OrderAccountIsProper(b, s.inventories, s.nextId, c);
    RegistryOfOrder(s.sets, b, c);
    if RolledBack(s.log, c) {
      assert s'.log == s.log + [] == s.log && s'.events == s.events + [] == s.events;
      if m.corr == UNSET {
        assert s'.commands == s.commands + [] == s.commands;
      } else {
        var n := RollbackMessage(c, b[c].order, UNSET);
        assert s'.commands == s.commands + [n];
        WeighAppend(s.commands, [n], Queued);
        WeighOne(n, Queued);
      }
    } else {
      var e := Event(s.nextId, b[c].order.accountId, c, RollbackFundsWithdrawn(-b[c].order.cost));
      var e' := Event(s.nextId + 1, b[c].order.accountId, c, RollbackOrderCreated(b[c].order.id));
      assert s'.log == s.log + [e, e'] && s'.events == s.events + ([e] + [e']) && s'.commands == s.commands + [] == s.commands;
      WeighAppend(s.events, [e] + [e'], Waiting);
      WeighAppend([e], [e'], Waiting);
      WeighOne(e, Waiting);
      WeighOne(e', Waiting);
      UndoKeepsLog(s.log, b, c, e, e');
      UnrolledUndone(s.log, [e, e'], b, c);
    }
  }

  lemma SettleDrains(s: System, b: Book, rejected: bool, s': System, b': Book)
    requires Enabled(s, Settle(rejected)) && s' == Step(s, Settle(rejected)) && b' == Track(s, b, Settle(rejected))
    requires Inv(s, b)
    ensures Measure(s', b') < Measure(s, b)
  {
    hide BookOk, LogOk, StreamsOk, RunsOk, DueOk, WorkOk, CompensationOwed, RegistryOk, WorkerOk, Due, Work, Step, SaveRow,
      Unrolled, Sagas.Register, Sagas.RollbackMessages, Handled;
    var e := s.delivery.value.event;
    var c := e.corr;
    DeliveredIsDue(s, b);
    SettleStep(s, rejected);
    UnrolledSame(s.log, s.log, b, b');
    CorrelateNone(c);
    if e.body.OrderCreated? {
      PlacedIfDue(Due(s), s.log, b, e);
      OrderAccountIsProper(b, s.inventories, s.nextId, c);
      RegistryOfOrder(s.sets, b, c);
      var m := Message(RemoveInventory(e.body.order.inventoryId, e.body.order.id, e.body.order.quantity), UNSET);
      CorrelateOne(m, c);
      WeighOne(m.(corr := c), Boxed);
    } else if rejected && Handled(e.body) {
      if c !in b {
        RegistryOfOthers(s.sets, b, c);
      } else {
        OrderAccountIsProper(b, s.inventories, s.nextId, c);
        RegistryOfOrder(s.sets, b, c);
        CorrelateOne(RollbackMessage(c, b[c].order, UNSET), c);
        WeighOne(RollbackMessage(c, b[c].order, c), Boxed);
      }
    }
  }

  lemma MoveDrains(s: System, b: Book, l: Label, s': System, b': Book)
    requires l.TakeCommand? || l.TakeEvent? || l.PublishNext? || l.Acknowledge?
    requires Enabled(s, l) && s' == Step(s, l) && b' == Track(s, b, l)
    ensures Measure(s', b') < Measure(s, b)
  {
    hide Unrolled;
    match l
    case TakeCommand(i) => WeighRemoveAt(s.commands, i, Queued);
    case TakeEvent(i) => WeighRemoveAt(s.events, i, Waiting);
    case PublishNext =>
      var outbox := s.delivery.value.outbox;
      assert outbox == [outbox[0]] + outbox[1..];
      WeighAppend([outbox[0]], outbox[1..], Boxed);
      WeighOne(outbox[0], Boxed);
      WeighAppend(s.commands, [outbox[0]], Queued);
      WeighOne(outbox[0], Queued);
    case _ =>
  }

  /** Every step but a new request uses up pending work. */
  lemma InternalStepsDrain(s: System, b: Book, l: Label, s': System, b': Book)
    requires Internal(l) && Enabled(s, l) && s' == Step(s, l) && b' == Track(s, b, l)
    requires Inv(s, b)
    ensures Measure(s', b') < Measure(s, b)
  {
    hide Inv, Step, Track, Measure, Decide;
    match l
    case Finish(i, nameTaken) => FinishDrains(s, b, i, nameTaken, s', b');
    case FinishCommand => FinishCommandDrains(s, b, s', b');
    case Settle(rejected) => SettleDrains(s, b, rejected, s', b');
    case _ => MoveDrains(s, b, l, s', b');
  }

  lemma FinishCommandDrains(s: System, b: Book, s': System, b': Book)
    requires s.worker.Some? && s' == Step(s, FinishCommand) && b' == Track(s, b, FinishCommand)
    requires Inv(s, b)
    ensures Measure(s', b') < Measure(s, b)
  {
    hide BookOk, LogOk, StreamsOk, RunsOk, DueOk, WorkOk, CompensationOwed, RegistryOk, WorkerOk, Work, Step, Decide, Measure;
    WorkerIsPublished(s, b);
    if s.worker.value.message.command.RemoveInventory? {
      RemoveDrains(s, b, s', b');
    } else {
      RollbackDrains(s, b, s');
    }
  }

  // ---- Runs ----

  /** A step that is enabled as long as something is pending. */
  function Pending(s: System): (l: Label)
    requires !Quiescent(s)
    ensures Internal(l) && l != Settle(true) && Enabled(s, l)
  {
    if s.runs != [] then Finish(0, false)
    else if s.worker.Some? then FinishCommand
    else if s.commands != [] then TakeCommand(0)
    else if s.delivery.None? then TakeEvent(0)
    else if !s.delivery.value.settled then Settle(false)
    else if s.delivery.value.outbox != [] then PublishNext
    else Acknowledge
  }

  /** Every label of `more` is internal and enabled where it is reached. */
  ghost predicate Draining(ls: seq<Label>, more: seq<Label>) {
    more == [] || (Draining(ls, more[..|more| - 1]) && Internal(more[|more| - 1])
                   && Enabled(After(ls + more[..|more| - 1]), more[|more| - 1]))
  }

  /** From any reachable state there are no more steps without a new request than the measure says. */
  lemma {:induction false} DrainingIsBounded(ls: seq<Label>, more: seq<Label>)
    requires Draining(ls, more)
    ensures |more| + Measure(After(ls + more), BookAfter(ls + more)) <= Measure(After(ls), BookAfter(ls))
  {
    hide Inv, Step, Track, Measure, Enabled;
    if more == [] {
      assert ls + more == ls;
    } else {
      var front, l := more[..|more| - 1], more[|more| - 1];
      DrainingIsBounded(ls, front);
      assert (ls + more)[..|ls + more| - 1] == ls + front && (ls + more)[|ls + more| - 1] == l;
      ReachableInv(ls + front);
      InternalStepsDrain(After(ls + front), BookAfter(ls + front), l, After(ls + more), BookAfter(ls + more));
    }
  }

  /** Draining that cannot go on has reached quiescence. */
  lemma StuckIsQuiescent(ls: seq<Label>)
    ensures Quiescent(After(ls)) <==> forall l :: Internal(l) ==> !Enabled(After(ls), l)
  {
    hide After;
    if !Quiescent(After(ls)) {
      var l := Pending(After(ls));
      assert Internal(l) && Enabled(After(ls), l);
    }
  }

  lemma PendingDrains(ls: seq<Label>)
    requires !Quiescent(After(ls))
    ensures var l := Pending(After(ls));
            Measure(After(ls + [l]), BookAfter(ls + [l])) < Measure(After(ls), BookAfter(ls))
  {
    hide Inv, Step, Track, Measure, Enabled, Quiescent, Pending;
    var l := Pending(After(ls));
    assert (ls + [l])[..|ls|] == ls && (ls + [l])[|ls|] == l;
    ReachableInv(ls);
    InternalStepsDrain(After(ls), BookAfter(ls), l, After(ls + [l]), BookAfter(ls + [l]));
  }

  /** From every reachable state quiescence can be reached, without a rejection. */
  lemma {:induction false} QuiescenceIsReached(ls: seq<Label>) returns (more: seq<Label>)
    ensures NoRejections(more) && Draining(ls, more) && Quiescent(After(ls + more))
    decreases Measure(After(ls), BookAfter(ls))
  {
    hide After, BookAfter, Measure, Enabled, Quiescent, Pending;
    more := [];
    assert ls + [] == ls;
    if !Quiescent(After(ls)) {
      var l := Pending(After(ls));
      PendingDrains(ls);
      var rest := QuiescenceIsReached(ls + [l]);
      more := [l] + rest;
      assert ls + [l] + rest == ls + more;
      DrainingFrom(ls, l, rest);
    }
  }

  lemma {:induction false} DrainingFrom(ls: seq<Label>, l: Label, rest: seq<Label>)
    requires Internal(l) && Enabled(After(ls), l) && Draining(ls + [l], rest)
    ensures Draining(ls, [l] + rest)
  {
    hide After, Enabled;
    if rest == [] {
      assert [l] + rest == [l] && [l][..0] == [] && ls + [] == ls;
      assert Draining(ls, []);
    } else {
      var front := rest[..|rest| - 1];
      DrainingFrom(ls, l, front);
      assert ([l] + rest)[..|rest|] == [l] + front;
      assert ls + [l] + front == ls + ([l] + front);
    }
  }
}
