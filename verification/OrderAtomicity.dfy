/** Cross-domain atomicity: what the saga promises about each order once nothing is pending. */
module OrderAtomicity {
  import opened Wrappers
  import opened Events
  import opened Aggregates
  import opened Messages
  import opened OrderSystem
  import opened OrderInvariant
  import opened OrderPreservation
  import opened OrderRuns
  import opened OrderHistory
  import opened LiveOrders
  import opened Totals
  import Accounts
  import Inventories

  function Listed(log: seq<Event>, accountId: Id): seq<Order> {
    Accounts.Orders(OfStream(log, accountId))
  }

  ghost predicate Pays(c: Id, o: Order, e: Event, e': Event) {
    && e.stream == e'.stream == o.accountId && e.corr == e'.corr == c
    && e.body == OrderCreated(o) && e'.body == FundsWithdrawn(-o.cost)
  }

  /** The order is listed, it was paid, and its inventory was removed, once each. */
  ghost predicate Done(log: seq<Event>, c: Id, o: Order) {
    var part, removal := AccountPart(log, c), RemovalPart(log, c);
    && |part| == 2 && Pays(c, o, part[0], part[1])
    && |removal| == 1 && removal[0].stream == o.inventoryId && removal[0].body == InventoryRemoved(o.quantity)
    && o in Listed(log, o.accountId)
  }

  /** The order is not listed, the payment was taken back, once each, and no inventory moved. */
  ghost predicate Compensated(log: seq<Event>, c: Id, o: Order) {
    var part := AccountPart(log, c);
    && |part| == 4 && Pays(c, o, part[0], part[1]) && IsUndo(c, o, part[2], part[3])
    && RemovalPart(log, c) == []
    && forall x :: x in Listed(log, o.accountId) ==> x.id != o.id
  }

  /** What a rejected delivery can leave behind: the order was never issued, or it was rolled back
      although its inventory was removed. */
  predicate Torn(e: Entry) {
    e.phase.Refused? || (e.phase.Removed? && e.late)
  }

  lemma QuiescentPhases(s: System, b: Book, c: Id)
    requires Quiescent(s) && c in b
    requires DueOk(Due(s), s.log, b) && WorkOk(Work(s), b) && CompensationOwed(Work(s), s.log, b)
    ensures !b[c].phase.Placed? && !b[c].phase.Issued?
    ensures RolledBack(s.log, c) <==> b[c].late || b[c].phase.Failed?
  {
    assert Due(s) == multiset{} && Work(s) == multiset{};
  }

  /** At any time: what has happened to the order, read off the log. */
  lemma DoneOrCompensated(s: System, b: Book, c: Id)
    requires c in b
    requires Consistent(s, b)
    ensures Done(s.log, c, b[c].order) <==> !RolledBack(s.log, c) && b[c].phase.Removed?
    ensures Compensated(s.log, c, b[c].order) <==> RolledBack(s.log, c) && !b[c].phase.Removed?
  {
    hide StreamsOk, RunsOk, RegistryOk, WorkerOk, History, Due, Work, DueOk, WorkOk, CompensationOwed, BookOk;
    ListedIffNotRolledBack(s, b, c);
    OrderAccountIsProper(b, s.inventories, s.nextId, c);
    assert AccountSide(s.log, c, b[c]) && RemovalSide(s.log, c, b[c]);
    if RolledBack(s.log, c) && !b[c].phase.Removed? {
      assert Compensated(s.log, c, b[c].order);
    }
  }

  lemma AtomicUnlessTorn(s: System, b: Book, c: Id)
    requires Quiescent(s) && c in b
    requires Consistent(s, b)
    ensures !(Done(s.log, c, b[c].order) && Compensated(s.log, c, b[c].order))
    ensures Done(s.log, c, b[c].order) || Compensated(s.log, c, b[c].order) <==> !Torn(b[c])
  {
    hide BookOk, StreamsOk, RunsOk, RegistryOk, WorkerOk, History, Due, Work, DueOk, WorkOk, CompensationOwed, Done, Compensated;
    QuiescentPhases(s, b, c);
    DoneOrCompensated(s, b, c);
    OrderAccountIsProper(b, s.inventories, s.nextId, c);
    PhaseCases(s, b, c);
  }

  lemma PhaseCases(s: System, b: Book, c: Id)
    requires c in b && BookOk(b, s.inventories, s.nextId)
    ensures b[c].late ==> Registered(b[c].phase)
  {
    assert EntryOk(c, b[c], s.inventories, s.nextId);
  }

  // ---- Over whole runs ----

  /** Every entry of the book is an order that was committed. */
  lemma EntriesAreOrders(ls: seq<Label>, s: System, b: Book, c: Id)
    requires s == After(ls) && b == BookAfter(ls) && c in b
    ensures b[c].placed in s.log && b[c].placed.corr == c && b[c].placed.body == OrderCreated(b[c].order)
  {
    hide After, BookAfter, Inv, History;
    ReachableHistory(ls);
    EntryIsOrder(s, b, c);
  }

  /** And every order that was committed has its entry. */
  lemma OrdersHaveEntries(ls: seq<Label>, s: System, b: Book, e: Event)
    requires s == After(ls) && b == BookAfter(ls) && e in s.log && e.body.OrderCreated?
    ensures e.corr in b && b[e.corr].placed == e
  {
    hide After, BookAfter, Inv, History;
    ReachableHistory(ls);
    OrderHasEntry(s, b, e);
  }

  lemma EntryIsOrder(s: System, b: Book, c: Id)
    requires c in b
    requires Inv(s, b)
    ensures b[c].placed in s.log && b[c].placed.corr == c && b[c].placed.body == OrderCreated(b[c].order)
  {
    hide StreamsOk, RunsOk, DueOk, WorkOk, CompensationOwed, RegistryOk, WorkerOk;
    PlacedIsOnStream(s.log, b, s.inventories, s.nextId, c);
    OrderAccountIsProper(b, s.inventories, s.nextId, c);
    OfStreamMembers(s.log, b[c].order.accountId);
  }

  lemma OrderHasEntry(s: System, b: Book, e: Event)
    requires e in s.log && e.body.OrderCreated?
    requires Inv(s, b)
    ensures e.corr in b && b[e.corr].placed == e
  {
    hide StreamsOk, RunsOk, DueOk, WorkOk, CompensationOwed, RegistryOk, WorkerOk;
    MentionedByItsOrder(s.log, b, s.inventories, s.nextId, e, e.body.order.id);
  }

  /** In every reachable state, with deliveries rejected and rollbacks repeated at will: an order was
      placed and paid once, rolled back at most once and as a whole, and its inventory was removed at
      most once. */
  lemma EffectsHappenOnce(ls: seq<Label>, c: Id)
    requires c in BookAfter(ls)
    ensures var part, o := AccountPart(After(ls).log, c), BookAfter(ls)[c].order;
            && (|part| == 2 || (|part| == 4 && IsUndo(c, o, part[2], part[3])))
            && Pays(c, o, part[0], part[1])
    ensures var removal, o := RemovalPart(After(ls).log, c), BookAfter(ls)[c].order;
            |removal| == 0 || (|removal| == 1 && removal[0].stream == o.inventoryId && removal[0].body == InventoryRemoved(o.quantity))
  {
    hide After, BookAfter, BookOk, StreamsOk, RunsOk, DueOk, WorkOk, CompensationOwed, RegistryOk, WorkerOk, AccountPart, RemovalPart;
    var s, b := After(ls), BookAfter(ls);
    ReachableInv(ls);
    OrderAccountIsProper(b, s.inventories, s.nextId, c);
    assert AccountSide(s.log, c, b[c]) && RemovalSide(s.log, c, b[c]);
  }

  /** At quiescence an order is fully done or fully compensated, and not both, exactly when no
      rejected delivery has torn it. */
  lemma SagaAtomicity(ls: seq<Label>, c: Id)
    requires Quiescent(After(ls)) && c in BookAfter(ls)
    ensures var log, o := After(ls).log, BookAfter(ls)[c].order;
            && !(Done(log, c, o) && Compensated(log, c, o))
            && (Done(log, c, o) || Compensated(log, c, o) <==> !Torn(BookAfter(ls)[c]))
  {
    hide After, BookAfter, Consistent, Quiescent, Done, Compensated;
    ReachableHistory(ls);
    ConsistentIs(After(ls), BookAfter(ls));
    AtomicUnlessTorn(After(ls), BookAfter(ls), c);
  }

  lemma ConsistentIs(s: System, b: Book)
    requires Inv(s, b)
    requires History(s, b)
    ensures Consistent(s, b)
  {
  }

  /** No delivery in the run was rejected. */
  predicate NoRejections(ls: seq<Label>) {
    forall l :: l in ls ==> l != Settle(true)
  }

  ghost predicate NoneTorn(b: Book) {
    forall c :: c in b ==> !b[c].phase.Refused? && !b[c].late
  }

  lemma {:induction false} WithoutRejectionsNoneTorn(ls: seq<Label>)
    requires NoRejections(ls)
    ensures NoneTorn(BookAfter(ls))
  {
    hide Enabled, Track;
    if ls != [] {
      var front, l := ls[..|ls| - 1], ls[|ls| - 1];
      assert l in ls && forall x :: x in front ==> x in ls;
      WithoutRejectionsNoneTorn(front);
      TrackTearsNone(After(front), BookAfter(front), l);
    }
  }

  lemma TrackTearsNone(s: System, b: Book, l: Label)
    requires NoneTorn(b) && l != Settle(true)
    ensures NoneTorn(NextBook(s, b, l))
  {
    hide Decide, Conclude, Start;
  }

  /** In a run without rejected deliveries, once nothing is pending, every order ever committed is
      either fully done or fully compensated. */
  lemma EveryOrderIsAtomic(ls: seq<Label>, e: Event)
    requires NoRejections(ls) && Quiescent(After(ls))
    requires e in After(ls).log && e.body.OrderCreated?
    ensures var log, o := After(ls).log, e.body.order;
            (Done(log, e.corr, o) || Compensated(log, e.corr, o)) && !(Done(log, e.corr, o) && Compensated(log, e.corr, o))
  {
    hide After, BookAfter, Quiescent, Done, Compensated;
    OrdersHaveEntries(ls, After(ls), BookAfter(ls), e);
    EntriesAreOrders(ls, After(ls), BookAfter(ls), e.corr);
    WithoutRejectionsNoneTorn(ls);
    SagaAtomicity(ls, e.corr);
  }

  // ---- Once torn, torn for good ----

  lemma TornStays(s: System, b: Book, l: Label, c: Id)
    requires Enabled(s, l) && c in b && Torn(b[c])
    requires Inv(s, b)
    ensures c in Track(s, b, l) && Torn(Track(s, b, l)[c]) && Track(s, b, l)[c].order == b[c].order
  {
    hide BookOk, LogOk, StreamsOk, RunsOk, DueOk, WorkOk, CompensationOwed, RegistryOk, WorkerOk, Due, Work, Decide;
    match l
    case Finish(i, nameTaken) => RunIsExternal(s, b, i);
    case FinishCommand =>
      WorkerIsPending(s);
      if s.worker.value.message.command.RemoveInventory? {
        IssuedIfPending(Work(s), b, s.worker.value.message);
      }
    case Settle(rejected) =>
      DeliveredIsDue(s, b);
      if s.delivery.value.event.body.OrderCreated? {
        PlacedIfDue(Due(s), s.log, b, s.delivery.value.event);
      }
    case _ =>
  }

  lemma {:induction false} TornForGood(ls: seq<Label>, more: seq<Label>, c: Id)
    requires c in BookAfter(ls) && Torn(BookAfter(ls)[c])
    ensures var b := BookAfter(ls + more); c in b && Torn(b[c]) && b[c].order == BookAfter(ls)[c].order
  {
    hide Torn, Enabled, Step, Track, Inv;
    if more == [] {
      assert ls + more == ls;
    } else {
      var front, l := more[..|more| - 1], more[|more| - 1];
      TornForGood(ls, front, c);
      assert (ls + more)[..|ls + more| - 1] == ls + front && (ls + more)[|ls + more| - 1] == l;
      ReachableInv(ls + front);
      if Enabled(After(ls + front), l) {
        TornStays(After(ls + front), BookAfter(ls + front), l, c);
      }
    }
  }

  /** The documentation promises a rollback when the handlers of an event fail. For the event that
      starts the saga it never comes: nothing is registered yet, and whatever happens later the
      order stays listed and paid without inventory ever being removed. */
  lemma RejectedPlacementIsNeverAtomic(ls: seq<Label>, more: seq<Label>)
    requires Enabled(After(ls), Settle(true)) && After(ls).delivery.value.event.body.OrderCreated?
    requires Quiescent(After(ls + [Settle(true)] + more))
    ensures var log, e := After(ls + [Settle(true)] + more).log, After(ls).delivery.value.event;
            !Done(log, e.corr, e.body.order) && !Compensated(log, e.corr, e.body.order)
  {
    hide Step, Inv, Done, Compensated, Quiescent, Due;
    var s, b, e := After(ls), BookAfter(ls), After(ls).delivery.value.event;
    var ls' := ls + [Settle(true)];
    assert ls'[..|ls|] == ls && ls'[|ls|] == Settle(true);
    ReachableInv(ls);
    PlacedDelivery(s, b);
    TornForGood(ls', more, e.corr);
    EntriesAreOrders(ls, s, b, e.corr);
    SagaAtomicity(ls' + more, e.corr);
  }

  lemma PlacedDelivery(s: System, b: Book)
    requires s.delivery.Some? && !s.delivery.value.settled && s.delivery.value.event.body.OrderCreated?
    requires Inv(s, b)
    ensures s.delivery.value.event.corr in b && b[s.delivery.value.event.corr].placed == s.delivery.value.event
  {
    hide BookOk, LogOk, StreamsOk, RunsOk, WorkOk, CompensationOwed, RegistryOk, WorkerOk;
    DeliveredIsDue(s, b);
    PlacedIfDue(Due(s), s.log, b, s.delivery.value.event);
  }

  /** Where a later delivery of the order is rejected after its inventory was removed, the rollback
      does come, and takes the order back while the inventory stays removed. */
  lemma LateRejectionIsNeverAtomic(ls: seq<Label>, more: seq<Label>, c: Id)
    requires Enabled(After(ls), Settle(true))
    requires var e := After(ls).delivery.value.event; e.corr == c && Handled(e.body) && !e.body.OrderCreated?
    requires c in BookAfter(ls) && BookAfter(ls)[c].phase.Removed?
    requires Quiescent(After(ls + [Settle(true)] + more))
    ensures var log, o := After(ls + [Settle(true)] + more).log, BookAfter(ls)[c].order;
            && !Done(log, c, o) && !Compensated(log, c, o)
            && RolledBack(log, c) && RemovalPart(log, c) != []
  {
    hide Step, Inv, History, Done, Compensated, Quiescent, RolledBack, RemovalPart;
    var ls' := ls + [Settle(true)];
    assert ls'[..|ls|] == ls && ls'[|ls|] == Settle(true);
    TornForGood(ls', more, c);
    SagaAtomicity(ls' + more, c);
    ReachableHistory(ls' + more);
    RemovedStays(ls', more, c);
    LateIsRolledBack(After(ls' + more), BookAfter(ls' + more), c);
  }

  lemma {:induction false} RemovedStays(ls: seq<Label>, more: seq<Label>, c: Id)
    requires c in BookAfter(ls) && BookAfter(ls)[c].phase.Removed? && BookAfter(ls)[c].late
    ensures var b := BookAfter(ls + more); c in b && b[c].phase.Removed? && b[c].late
  {
    hide Enabled, Step, Track, Inv;
    if more == [] {
      assert ls + more == ls;
    } else {
      var front, l := more[..|more| - 1], more[|more| - 1];
      RemovedStays(ls, front, c);
      assert (ls + more)[..|ls + more| - 1] == ls + front && (ls + more)[|ls + more| - 1] == l;
      ReachableInv(ls + front);
      if Enabled(After(ls + front), l) {
        RemovedStaysStep(After(ls + front), BookAfter(ls + front), l, c);
      }
    }
  }

  lemma RemovedStaysStep(s: System, b: Book, l: Label, c: Id)
    requires Enabled(s, l) && c in b && b[c].phase.Removed? && b[c].late
    requires Inv(s, b)
    ensures var b' := Track(s, b, l); c in b' && b'[c].phase.Removed? && b'[c].late
  {
    hide BookOk, LogOk, StreamsOk, RunsOk, DueOk, WorkOk, CompensationOwed, RegistryOk, WorkerOk, Due, Work, Decide;
    match l
    case Finish(i, nameTaken) => RunIsExternal(s, b, i);
    case FinishCommand =>
      WorkerIsPending(s);
      if s.worker.value.message.command.RemoveInventory? {
        IssuedIfPending(Work(s), b, s.worker.value.message);
      }
    case Settle(rejected) =>
      DeliveredIsDue(s, b);
      if s.delivery.value.event.body.OrderCreated? {
        PlacedIfDue(Due(s), s.log, b, s.delivery.value.event);
      }
    case _ =>
  }

  lemma LateIsRolledBack(s: System, b: Book, c: Id)
    requires Quiescent(s) && c in b && b[c].phase.Removed? && b[c].late
    requires Inv(s, b)
    ensures RolledBack(s.log, c) && RemovalPart(s.log, c) != []
  {
    hide BookOk, StreamsOk, RunsOk, DueOk, WorkOk, CompensationOwed, RegistryOk, WorkerOk, Due, Work;
    QuiescentPhases(s, b, c);
    assert RemovalSide(s.log, c, b[c]);
  }
}
