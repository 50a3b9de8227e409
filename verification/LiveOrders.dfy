/** Which orders an account lists: those that were created and not rolled back. */
module LiveOrders {
  import opened Wrappers
  import opened Events
  import opened Aggregates
  import opened OrderSystem
  import opened OrderInvariant
  import opened OrderPreservation
  import opened OrderRuns
  import opened OrderHistory
  import opened Totals
  import Accounts

  predicate Dropped(h: seq<Event>, orderId: Id) {
    exists e :: e in h && e.body == RollbackOrderCreated(orderId)
  }

  /** The orders created in `h` whose ids `all` does not roll back, in order of creation. */
  function Undropped(h: seq<Event>, all: seq<Event>): seq<Order> {
    if h == [] then []
    else
      var last := h[|h| - 1];
      if last.body.OrderCreated? && !Dropped(all, last.body.order.id)
      then Undropped(h[..|h| - 1], all) + [last.body.order]
      else Undropped(h[..|h| - 1], all)
  }

  lemma DroppedPush(all: seq<Event>, e: Event, id: Id)
    ensures Dropped(all + [e], id) <==> Dropped(all, id) || e.body == RollbackOrderCreated(id)
  {
    assert e in all + [e];
    if Dropped(all, id) {
      var x :| x in all && x.body == RollbackOrderCreated(id);
      assert x in all + [e];
    }
  }

  /** One more event drops at most the order it rolls back. */
  lemma {:induction false} UndroppedPush(h: seq<Event>, all: seq<Event>, e: Event)
    ensures Undropped(h, all + [e])
         == if e.body.RollbackOrderCreated? then Accounts.DropOrders(Undropped(h, all), {e.body.orderId})
            else Undropped(h, all)
  {
    if h != [] {
      var front, last := h[..|h| - 1], h[|h| - 1];
      UndroppedPush(front, all, e);
      if last.body.OrderCreated? {
        DroppedPush(all, e, last.body.order.id);
        if e.body.RollbackOrderCreated? {
          Accounts.DropPush(Undropped(front, all), last.body.order, {e.body.orderId});
        }
      }
    }
  }

  /** In a history that keeps to the order of events, the order list is exactly that. */
  lemma {:induction false} OrdersAreUndropped(h: seq<Event>)
    requires Chronicle(h)
    ensures Accounts.Orders(h) == Undropped(h, h)
  {
    if h != [] {
      var front, last := h[..|h| - 1], h[|h| - 1];
      assert h == front + [last];
      OrdersAreUndropped(front);
      UndroppedPush(front, front, last);
      if last.body.OrderCreated? {
        DroppedPush(front, last, last.body.order.id);
      }
    }
  }

  lemma {:induction false} UndroppedMembers(h: seq<Event>, all: seq<Event>, o: Order)
    ensures o in Undropped(h, all) <==> !Dropped(all, o.id) && exists e :: e in h && e.body == OrderCreated(o)
  {
    if h != [] {
      var front, last := h[..|h| - 1], h[|h| - 1];
      assert h == front + [last];
      UndroppedMembers(front, all, o);
    }
  }

  lemma CreatedOnStream(log: seq<Event>, id: Id)
    ensures Created(OfStream(log, id), id) <==> Created(log, id)
  {
    OfStreamMembers(log, id);
  }

  lemma StreamFits(log: seq<Event>, e: Event)
    requires Fits(log, e)
    ensures Fits(OfStream(log, e.stream), e)
  {
    OfStreamMembers(log, e.stream);
    CreatedOnStream(log, e.stream);
  }

  /** A stream keeps to the order of events if the log does. */
  lemma {:induction false} StreamChronicle(log: seq<Event>, id: Id)
    requires Chronicle(log)
    ensures Chronicle(OfStream(log, id))
  {
    if log != [] {
      var front, last := log[..|log| - 1], log[|log| - 1];
      StreamChronicle(front, id);
      if last.stream == id {
        StreamFits(front, last);
        ChroniclePush(OfStream(front, id), last);
      }
    }
  }

  /** On such a history, cut anywhere, the copy made by `getAggregatePriorTo` shows the order list of
      the cut exactly when the account lists no order now. */
  lemma PriorOrdersOfHistory(h: seq<Event>, k: nat)
    requires Chronicle(h) && Replay(Accounts.HANDLERS, h).Ok? && k <= |h|
    ensures Replay(Accounts.HANDLERS, h[..k]).Ok?
    ensures var current := Replay(Accounts.HANDLERS, h).value;
            && ReplayFrom(Accounts.HANDLERS, current, h[..k]).Ok?
            && var copy, prior := ReplayFrom(Accounts.HANDLERS, current, h[..k]).value, Replay(Accounts.HANDLERS, h[..k]).value;
               Accounts.OrdersOr(copy.orders) == Accounts.OrdersOr(prior.orders) <==> Accounts.Orders(h) == []
  {
    hide Chronicle, ReplayFrom, Undropped, Accounts.OrdersFrom;
    var current, p := Replay(Accounts.HANDLERS, h).value, h[..k];
    assert h == p + h[k..];
    ReplayAppend(Accounts.HANDLERS, Accounts.HANDLERS.initial, p, h[k..]);
    Accounts.PriorCopyIsPriorState(current, p);
    Accounts.ReplayIsFolds(Accounts.HANDLERS.initial, h);
    OrdersAreUndropped(h);
    forall o | o in Accounts.Orders(h)
      ensures o.id !in Accounts.RolledBackIds(p)
    {
      UndroppedMembers(h, h, o);
    }
    if Accounts.Orders(h) != [] {
      assert Accounts.Orders(h)[0] in Accounts.Orders(h);
    }
  }

  // ---- In reachable states ----

  ghost predicate Consistent(s: System, b: Book) {
    Inv(s, b) && History(s, b)
  }

  lemma DroppedIffRolledBack(s: System, b: Book, c: Id)
    requires c in b
    requires Consistent(s, b)
    ensures Dropped(OfStream(s.log, b[c].order.accountId), b[c].order.id) <==> RolledBack(s.log, c)
  {
    hide StreamsOk, RunsOk, DueOk, WorkOk, CompensationOwed, RegistryOk, WorkerOk, History;
    var h, o, part := OfStream(s.log, b[c].order.accountId), b[c].order, AccountPart(s.log, c);
    OfStreamMembers(s.log, o.accountId);
    FilterMembers(s.log, (e: Event) => InAccountPart(e, c));
    assert AccountSide(s.log, c, b[c]);
    if RolledBack(s.log, c) {
      assert part[3] in part && part[3] in h && part[3].body == RollbackOrderCreated(o.id);
    }
    if Dropped(h, o.id) {
      var e :| e in h && e.body == RollbackOrderCreated(o.id);
      MentionedByItsOrder(s.log, b, s.inventories, s.nextId, e, o.id);
      assert e.corr == c;
    }
  }

  /** An order is on its account's list unless it was rolled back, and never another one with
      its id. */
  lemma ListedIffNotRolledBack(s: System, b: Book, c: Id)
    requires c in b
    requires Consistent(s, b)
    ensures forall o :: o in Accounts.Orders(OfStream(s.log, b[c].order.accountId)) && o.id == b[c].order.id ==> o == b[c].order
    ensures b[c].order in Accounts.Orders(OfStream(s.log, b[c].order.accountId)) <==> !RolledBack(s.log, c)
  {
    hide StreamsOk, RunsOk, DueOk, WorkOk, CompensationOwed, RegistryOk, WorkerOk, RunsFit, Created, RolledBack;
    var h := OfStream(s.log, b[c].order.accountId);
    StreamChronicle(s.log, b[c].order.accountId);
    OrdersAreUndropped(h);
    UndroppedMembers(h, h, b[c].order);
    DroppedIffRolledBack(s, b, c);
    PlacedIsOnStream(s.log, b, s.inventories, s.nextId, c);
    OrderAccountIsProper(b, s.inventories, s.nextId, c);
    OfStreamMembers(s.log, b[c].order.accountId);
    forall o | o in Accounts.Orders(h) && o.id == b[c].order.id
      ensures o == b[c].order
    {
      UndroppedMembers(h, h, o);
      var e :| e in h && e.body == OrderCreated(o);
      MentionedByItsOrder(s.log, b, s.inventories, s.nextId, e, o.id);
    }
  }
}
