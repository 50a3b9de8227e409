/** A compensated order might as well never have happened: in every reachable state its account
    replays to what it would be with all events of the order, compensations included, deleted. */
module OrderErasure {
  import opened Wrappers
  import opened Events
  import opened Aggregates
  import opened OrderSystem
  import opened OrderInvariant
  import opened OrderPreservation
  import opened OrderRuns
  import opened OrderHistory
  import opened LiveOrders
  import opened OrderAtomicity
  import opened OrderLedger
  import opened Totals
  import Accounts

  // ---- The balance ----

  lemma RolledBackMovesNothing(log: seq<Event>, c: Id, e: Entry)
    requires AccountSide(log, c, e) && RolledBack(log, c)
    requires e.placed.body == OrderCreated(e.order) && e.paid.body == FundsWithdrawn(-e.order.cost)
    ensures Total(AccountPart(log, c), Moved) == 0
  {
    hide AccountPart, Total;
    var part := AccountPart(log, c);
    assert part == [e.placed, e.paid] + [part[2], part[3]];
    TotalAppend([e.placed, e.paid], [part[2], part[3]], Moved);
    TotalTwo(e.placed, e.paid, Moved);
    TotalTwo(part[2], part[3], Moved);
  }

  lemma WithoutParts(a: seq<Event>, o: Event, z: seq<Event>, c: Id)
    requires o.corr != c
    ensures Without(a + [o] + z, c) == Without(a, c) + [o] + Without(z, c)
    ensures OfCorrelation(a + [o] + z, c) == OfCorrelation(a, c) + OfCorrelation(z, c)
  {
    FilterAppend(a + [o], z, (e: Event) => e.corr != c);
    FilterAppend(a + [o], z, (e: Event) => e.corr == c);
    PushEvent(a, o, c);
  }

  /** Deleting events that move nothing in all changes the balance by what they moved before the
      opening. */
  lemma BalanceErased(h: seq<Event>, c: Id)
    requires OpenedOnce(h) && Total(OfCorrelation(h, c), Moved) == 0
    requires forall e :: e in h && e.body.AccountCreated? ==> e.corr != c
    ensures Accounts.Balance(h)
         == Accounts.Add(Accounts.Balance(Without(h, c)), -Total(OfCorrelation(h[..OpeningAt(h)], c), Moved))
  {
    hide Total, Without, OfCorrelation, Accounts.BalanceFrom, OpenedOnce;
    var k := OpeningAt(h);
    WithoutMembers(h, c);
    if k == |h| {
      NeverOpened(h);
      NeverOpened(Without(h, c));
    } else {
      var a, o, z := h[..k], h[k], h[k + 1..];
      assert o in h;
      OpeningSplits(h, z);
      WithoutParts(a, o, z, c);
      WithoutMembers(z, c);
      BalanceSinceOpening(a, o, z);
      BalanceSinceOpening(Without(a, c), o, Without(z, c));
      SplitCorrelation(z, c, Moved);
      TotalAppend(OfCorrelation(a, c), OfCorrelation(z, c), Moved);
    }
  }

  /** What a first part of the four events of a rolled-back order moves. */
  lemma PartOfOrderMoves(xs: seq<Event>, ys: seq<Event>, c: Id, o: Order)
    requires |xs + ys| == 4 && Pays(c, o, (xs + ys)[0], (xs + ys)[1]) && IsUndo(c, o, (xs + ys)[2], (xs + ys)[3])
    ensures Total(xs, Moved) == if |xs| == 2 then -o.cost else 0
  {
    var all := xs + ys;
    assert forall i :: 0 <= i < |xs| ==> xs[i] == all[i];
    if |xs| > 0 {
      assert xs[..1] == [xs[0]];
      TotalOne(xs[0], Moved);
    }
    if |xs| > 1 {
      assert xs[..2] == [xs[0], xs[1]];
      TotalTwo(xs[0], xs[1], Moved);
    }
    if |xs| > 2 {
      assert xs[..3] == xs[..2] + [xs[2]];
      TotalAppend(xs[..2], [xs[2]], Moved);
      TotalOne(xs[2], Moved);
    }
    if |xs| > 3 {
      assert xs == xs[..3] + [xs[3]];
      TotalAppend(xs[..3], [xs[3]], Moved);
      TotalOne(xs[3], Moved);
    } else {
      assert xs[..|xs|] == xs;
    }
  }

  // ---- The order list ----

  /** How deleting a correlation relates what is dropped. */
  ghost predicate Separates(p: seq<Event>, h: seq<Event>, w: seq<Event>, c: Id) {
    forall e :: e in p && e.body.OrderCreated? ==>
      if e.corr == c then Dropped(h, e.body.order.id) else (Dropped(h, e.body.order.id) <==> Dropped(w, e.body.order.id))
  }

  lemma {:induction false} UndroppedErased(p: seq<Event>, h: seq<Event>, w: seq<Event>, c: Id)
    requires Separates(p, h, w, c)
    ensures Undropped(p, h) == Undropped(Without(p, c), w)
  {
    if p != [] {
      var front, last := p[..|p| - 1], p[|p| - 1];
      assert p == front + [last];
      assert last in p && forall e :: e in front ==> e in p;
      UndroppedErased(front, h, w, c);
      PushEvent(front, last, c);
      UndroppedLast(Without(front, c), last, w);
    }
  }

  lemma UndroppedLast(p: seq<Event>, e: Event, w: seq<Event>)
    ensures Undropped(p + [e], w)
         == if e.body.OrderCreated? && !Dropped(w, e.body.order.id) then Undropped(p, w) + [e.body.order] else Undropped(p, w)
  {
    assert (p + [e])[..|p|] == p;
  }

  lemma FitsWithout(h: seq<Event>, e: Event, c: Id)
    requires Fits(h, e) && !e.body.InventoryRemoved?
    ensures Fits(Without(h, c), e)
  {
    WithoutMembers(h, c);
  }

  lemma {:induction false} WithoutChronicle(h: seq<Event>, c: Id)
    requires Chronicle(h) && forall e :: e in h ==> !e.body.InventoryRemoved?
    ensures Chronicle(Without(h, c))
  {
    if h != [] {
      var front, last := h[..|h| - 1], h[|h| - 1];
      assert h == front + [last];
      assert last in h && forall e :: e in front ==> e in h;
      WithoutChronicle(front, c);
      PushEvent(front, last, c);
      if last.corr != c {
        FitsWithout(front, last, c);
        ChroniclePush(Without(front, c), last);
      }
    }
  }

  lemma RolledBackSeparates(s: System, b: Book, c: Id)
    requires c in b && RolledBack(s.log, c)
    requires Consistent(s, b)
    ensures var h := OfStream(s.log, b[c].order.accountId);
            Separates(h, h, Without(h, c), c)
  {
    hide StreamsOk, RunsOk, DueOk, WorkOk, CompensationOwed, RegistryOk, WorkerOk, History, LogOk, BookOk, RolledBack;
    var h := OfStream(s.log, b[c].order.accountId);
    OfStreamMembers(s.log, b[c].order.accountId);
    WithoutMembers(h, c);
    DroppedIffRolledBack(s, b, c);
    forall e | e in h && e.body.OrderCreated?
      ensures if e.corr == c then Dropped(h, e.body.order.id)
              else (Dropped(h, e.body.order.id) <==> Dropped(Without(h, c), e.body.order.id))
    {
      OrderIsOfItsEntry(s, b, e);
      if e.corr != c && Dropped(h, e.body.order.id) {
        var x :| x in h && x.body == RollbackOrderCreated(e.body.order.id);
        MentionedByItsOrder(s.log, b, s.inventories, s.nextId, x, e.body.order.id);
        DifferentOrders(b, s.inventories, s.nextId, x.corr, e.corr);
        assert x in Without(h, c);
      }
    }
  }

  lemma OrderIsOfItsEntry(s: System, b: Book, e: Event)
    requires e in s.log && e.body.OrderCreated?
    requires Consistent(s, b)
    ensures e.corr in b && b[e.corr].order == e.body.order
  {
    hide StreamsOk, RunsOk, DueOk, WorkOk, CompensationOwed, RegistryOk, WorkerOk, History;
    MentionedByItsOrder(s.log, b, s.inventories, s.nextId, e, e.body.order.id);
    OrderAccountIsProper(b, s.inventories, s.nextId, e.corr);
  }

  lemma DifferentOrders(b: Book, inventories: set<Id>, nextId: nat, c: Id, d: Id)
    requires BookOk(b, inventories, nextId) && c in b && d in b && b[c].order.id == b[d].order.id
    ensures c == d
  {
  }

  // ---- Both ----

  lemma OpeningIsNoOrders(s: System, b: Book, e: Event)
    requires e in s.log && e.body.AccountCreated?
    requires Consistent(s, b)
    ensures e.corr !in b
  {
    hide BookOk, StreamsOk, RunsOk, DueOk, WorkOk, CompensationOwed, RegistryOk, WorkerOk, History, AccountPart, RemovalPart;
    if e.corr in b {
      InPart(s.log, e.corr, e);
      assert AccountSide(s.log, e.corr, b[e.corr]);
      OrderAccountIsProper(b, s.inventories, s.nextId, e.corr);
    }
  }

  lemma RolledBackTotal(s: System, b: Book, c: Id)
    requires c in b && RolledBack(s.log, c)
    requires Consistent(s, b)
    ensures Total(OfCorrelation(OfStream(s.log, b[c].order.accountId), c), Moved) == 0
  {
    hide StreamsOk, RunsOk, DueOk, WorkOk, CompensationOwed, RegistryOk, WorkerOk, History, BookOk, RolledBack, AccountSide,
      RemovalSide, Total, AccountPart;
    AccountPartIsOnStream(s.log, b, s.inventories, s.nextId, c);
    OrderAccountIsProper(b, s.inventories, s.nextId, c);
    RolledBackMovesNothing(s.log, c, b[c]);
  }

  lemma NothingRemovedOnAccounts(s: System, b: Book, id: Id)
    requires id !in s.inventories
    requires Consistent(s, b)
    ensures forall e :: e in OfStream(s.log, id) ==> e in s.log && !e.body.InventoryRemoved?
  {
    hide BookOk, LogOk, RunsOk, DueOk, WorkOk, CompensationOwed, RegistryOk, WorkerOk, History;
    OfStreamMembers(s.log, id);
  }

  /** The account was opened after the order was paid for and before it was refunded. */
  predicate OpenedInBetween(h: seq<Event>, c: Id) {
    OpeningAt(h) < |h| && |OfCorrelation(h[..OpeningAt(h)], c)| == 2
  }

  lemma MovedBeforeOpening(s: System, b: Book, c: Id, h: seq<Event>, k: nat)
    requires c in b && RolledBack(s.log, c) && h == OfStream(s.log, b[c].order.accountId) && k <= |h|
    requires Consistent(s, b)
    ensures Total(OfCorrelation(h[..k], c), Moved) == if |OfCorrelation(h[..k], c)| == 2 then -b[c].order.cost else 0
  {
    hide StreamsOk, RunsOk, DueOk, WorkOk, CompensationOwed, RegistryOk, WorkerOk, History, BookOk, RemovalSide, Total, AccountPart;
    AccountPartIsOnStream(s.log, b, s.inventories, s.nextId, c);
    OrderAccountIsProper(b, s.inventories, s.nextId, c);
    assert AccountSide(s.log, c, b[c]);
    assert h == h[..k] + h[k..];
    FilterAppend(h[..k], h[k..], (e: Event) => e.corr == c);
    hide OfCorrelation, OfStream;
    PartOfOrderMoves(OfCorrelation(h[..k], c), OfCorrelation(h[k..], c), c, b[c].order);
  }

  lemma OrdersErasedInState(s: System, b: Book, c: Id)
    requires c in b && RolledBack(s.log, c)
    requires Consistent(s, b)
    ensures var h := OfStream(s.log, b[c].order.accountId); Accounts.Orders(h) == Accounts.Orders(Without(h, c))
  {
    hide LogOk, RunsOk, DueOk, WorkOk, CompensationOwed, RegistryOk, WorkerOk, History, RolledBack, Without,
      OfStream, Accounts.OrdersFrom, Undropped, Chronicle, Separates;
    var h := OfStream(s.log, b[c].order.accountId);
    OrderAccount(b, s.inventories, s.nextId, c);
    hide BookOk, StreamsOk;
    AccountStream(s, b, b[c].order.accountId);
    NothingRemovedOnAccounts(s, b, b[c].order.accountId);
    RolledBackSeparates(s, b, c);
    UndroppedErased(h, h, Without(h, c), c);
    OrdersAreUndropped(h);
    WithoutChronicle(h, c);
    OrdersAreUndropped(Without(h, c));
  }

  lemma BalanceErasedInState(s: System, b: Book, c: Id)
    requires c in b && RolledBack(s.log, c)
    requires Consistent(s, b)
    ensures var h := OfStream(s.log, b[c].order.accountId);
            && Replay(Accounts.HANDLERS, h).Ok?
            && Accounts.Balance(h)
               == Accounts.Add(Accounts.Balance(Without(h, c)), if OpenedInBetween(h, c) then b[c].order.cost else 0)
  {
    hide LogOk, RunsOk, DueOk, WorkOk, CompensationOwed, RegistryOk, WorkerOk, History, RolledBack, Total, Without, OfCorrelation,
      OfStream, Accounts.BalanceFrom, Chronicle, OpenedOnce, ReplayFrom;
    var h := OfStream(s.log, b[c].order.accountId);
    OrderAccount(b, s.inventories, s.nextId, c);
    hide BookOk, StreamsOk;
    AccountStream(s, b, b[c].order.accountId);
    NothingRemovedOnAccounts(s, b, b[c].order.accountId);
    forall e | e in h && e.body.AccountCreated?
      ensures e.corr != c
    {
      OpeningIsNoOrders(s, b, e);
    }
    RolledBackTotal(s, b, c);
    BalanceErased(h, c);
    MovedBeforeOpening(s, b, c, h, OpeningAt(h));
    if OpeningAt(h) == |h| {
      NeverOpened(h);
      WithoutMembers(h, c);
      NeverOpened(Without(h, c));
    }
  }

  /** In every reachable state, whatever was interleaved before, between and after, and whether the
      account was ever opened or not: the account of an order that was rolled back has the order
      list that it would have if every event of the order were deleted from its history. */
  lemma CompensatedOrderIsErased(ls: seq<Label>, s: System, b: Book, c: Id)
    requires s == After(ls) && b == BookAfter(ls) && c in b && RolledBack(s.log, c)
    ensures var h := OfStream(s.log, b[c].order.accountId);
            && Replay(Accounts.HANDLERS, h).Ok?
            && Accounts.OrdersOr(Replay(Accounts.HANDLERS, h).value.orders) == Accounts.Orders(Without(h, c))
  {
    hide After, BookAfter, Inv, History, RolledBack, OfStream, ReplayFrom;
    ReachableHistory(ls);
    ConsistentIs(s, b);
    OrdersErasedInState(s, b, c);
    BalanceErasedInState(s, b, c);
    Accounts.ReplayIsFolds(Accounts.HANDLERS.initial, OfStream(s.log, b[c].order.accountId));
  }

  /** And the balance: it is that of the history without the order, unless the account was opened
      between payment and refund; then the opening has overwritten the payment and the refund is
      money from nowhere. */
  lemma CompensatedPaymentIsErased(ls: seq<Label>, s: System, b: Book, c: Id)
    requires s == After(ls) && b == BookAfter(ls) && c in b && RolledBack(s.log, c)
    ensures var h, o := OfStream(s.log, b[c].order.accountId), b[c].order;
            && Replay(Accounts.HANDLERS, h).Ok?
            && var balance, erased := Replay(Accounts.HANDLERS, h).value.balance, Accounts.Balance(Without(h, c));
               && balance == Accounts.Add(erased, if OpenedInBetween(h, c) then o.cost else 0)
               && (balance == erased <==> !OpenedInBetween(h, c) || o.cost == 0)
  {
    hide After, BookAfter, Inv, History, RolledBack, OfStream, ReplayFrom, Without;
    ReachableHistory(ls);
    ConsistentIs(s, b);
    BalanceErasedInState(s, b, c);
    var h := OfStream(s.log, b[c].order.accountId);
    Accounts.ReplayIsFolds(Accounts.HANDLERS.initial, h);
    OpenedStaysOpen(s, b, c, h);
  }

  /** Deleting an order never deletes the opening. */
  lemma OpenedStaysOpen(s: System, b: Book, c: Id, h: seq<Event>)
    requires c in b && RolledBack(s.log, c) && h == OfStream(s.log, b[c].order.accountId)
    requires Consistent(s, b)
    ensures Accounts.Balance(Without(h, c)).Some? <==> OpeningAt(h) < |h|
  {
    hide LogOk, RunsOk, DueOk, WorkOk, CompensationOwed, RegistryOk, WorkerOk, History, RolledBack, Total, Without, OfCorrelation,
      OfStream, Accounts.BalanceFrom, Chronicle, OpenedOnce, ReplayFrom;
    OrderAccount(b, s.inventories, s.nextId, c);
    hide BookOk, StreamsOk;
    AccountStream(s, b, b[c].order.accountId);
    BalanceErasedInState(s, b, c);
    BalanceIsTotal(h);
  }
}
