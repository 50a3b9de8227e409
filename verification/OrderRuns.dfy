/** Whole runs of the order system, and what holds in every state they reach. */
module OrderRuns {
  import opened Wrappers
  import opened Events
  import opened Aggregates
  import opened Messages
  import opened OrderSystem
  import opened OrderInvariant
  import opened OrderPreservation
  import Sagas
  import Accounts

  /** A label that is not enabled changes nothing, so every list of labels is a run. */
  function Next(s: System, l: Label): System {
    if Enabled(s, l) then Step(s, l) else s
  }

  function After(ls: seq<Label>): System {
    if ls == [] then INIT else Next(After(ls[..|ls| - 1]), ls[|ls| - 1])
  }

  function NextBook(s: System, b: Book, l: Label): Book {
    if Enabled(s, l) then Track(s, b, l) else b
  }

  function BookAfter(ls: seq<Label>): Book {
    if ls == [] then map[]
    else NextBook(After(ls[..|ls| - 1]), BookAfter(ls[..|ls| - 1]), ls[|ls| - 1])
  }

  lemma InitialInv()
    ensures Inv(INIT, map[])
  {
    assert forall id :: OfStream([], id) == [];
    hide OfStream;
  }

  lemma {:induction false} ReachableInv(ls: seq<Label>)
    ensures Inv(After(ls), BookAfter(ls))
  {
    hide Inv, Step, Track, Enabled;
    if ls == [] {
      InitialInv();
    } else {
      var front, l := ls[..|ls| - 1], ls[|ls| - 1];
      ReachableInv(front);
      if Enabled(After(front), l) {
        StepKeepsInv(After(front), BookAfter(front), l, After(ls), BookAfter(ls));
      }
    }
  }

  // ---- Compensation is registered first ----

  predicate PendingMessage(s: System, m: Message) {
    || m in s.commands
    || (s.delivery.Some? && s.delivery.value.settled && m in s.delivery.value.outbox)
    || (s.worker.Some? && s.worker.value.message == m)
  }

  /** In every reachable state a RemoveInventory that is in an outbox, in the queue or running has
      its compensation in the registry: rolling its correlation back at that moment sends exactly
      one command, for the account stream of the order. */
  lemma CompensationIsRegisteredFirst(ls: seq<Label>, s: System, b: Book, m: Message)
    requires s == After(ls) && b == BookAfter(ls)
    requires PendingMessage(s, m) && m.command.RemoveInventory?
    ensures m.corr in b && m == RemoveMessage(m.corr, b[m.corr].order)
    ensures Sagas.RollbackMessages(s.sets, m.corr) == [RollbackMessage(m.corr, b[m.corr].order, UNSET)]
  {
    hide After, BookAfter, LogOk, StreamsOk, RunsOk, DueOk, CompensationOwed;
    ReachableInv(ls);
    assert m in Work(s);
    IssuedIfPending(Work(s), b, m);
    OrderAccountIsProper(b, s.inventories, s.nextId, m.corr);
    RegistryOfOrder(s.sets, b, m.corr);
  }

  /** A correlation that is no order's, or whose order was never issued, has nothing registered. */
  lemma OnlyOrdersAreRegistered(ls: seq<Label>, c: Id)
    requires c !in BookAfter(ls) || !Registered(BookAfter(ls)[c].phase)
    ensures Sagas.RollbackMessages(After(ls).sets, c) == []
  {
    hide After, BookAfter, LogOk, StreamsOk, RunsOk, DueOk, CompensationOwed, Registered;
    var s, b := After(ls), BookAfter(ls);
    ReachableInv(ls);
    if c !in b {
      RegistryOfOthers(s.sets, b, c);
    } else {
      OrderAccountIsProper(b, s.inventories, s.nextId, c);
      RegistryOfOrder(s.sets, b, c);
    }
  }

  /** A rollback command is only ever pending for an order whose rollback was registered, and is
      addressed to the account stream of that order. */
  lemma OnlyRegisteredAreRolledBack(ls: seq<Label>, s: System, b: Book, m: Message)
    requires s == After(ls) && b == BookAfter(ls)
    requires PendingMessage(s, m) && m.command.RollbackAccount?
    ensures var c := m.command.correlationId;
            c in b && Registered(b[c].phase) && m.command.streamId == b[c].order.accountId
  {
    hide After, BookAfter, LogOk, StreamsOk, RunsOk, DueOk, CompensationOwed, Registered;
    ReachableInv(ls);
    assert m in Work(s);
    RollbackIfPending(Work(s), b, m);
  }
}
