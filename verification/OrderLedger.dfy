/** Money and goods are conserved: balances against order lists in every reachable state, and
    quantities against order lists once nothing is pending. */
module OrderLedger {
  import opened Wrappers
  import opened Events
  import opened Aggregates
  import opened OrderSystem
  import opened OrderInvariant
  import opened OrderPreservation
  import opened OrderRuns
  import opened OrderHistory
  import opened LiveOrders
  import opened OrderAtomicity
  import opened Totals
  import Accounts
  import Inventories

  // ---- Balances ----

  function CostOf(os: seq<Order>): int {
    if os == [] then 0 else CostOf(os[..|os| - 1]) + os[|os| - 1].cost
  }

  /** What an event moves on an open account. */
  function Moved(e: Event): int {
    match e.body
    case FundsDeposited(funds) => funds
    case FundsWithdrawn(funds) => funds
    case RollbackFundsWithdrawn(funds) => -funds
    case _ => 0
  }

  predicate OfOrder(h: seq<Event>, c: Id) {
    exists e :: e in h && e.corr == c && e.body.OrderCreated?
  }

  /** Deposits and the withdrawals that pay for no order, which are negative. */
  function DirectlyMoved(h: seq<Event>, e: Event): int {
    match e.body
    case FundsDeposited(funds) => funds
    case FundsWithdrawn(funds) => if OfOrder(h, e.corr) then 0 else funds
    case _ => 0
  }

  function ListedCost(h: seq<Event>, e: Event): int {
    if e.body.OrderCreated? && !Dropped(h, e.body.order.id) then e.body.order.cost else 0
  }

  lemma {:induction false} CostOfUndropped(h: seq<Event>, all: seq<Event>)
    ensures CostOf(Undropped(h, all)) == Total(h, (e: Event) => ListedCost(all, e))
  {
    if h != [] {
      CostOfUndropped(h[..|h| - 1], all);
      var os := Undropped(h[..|h| - 1], all);
      assert forall o: Order :: (os + [o])[..|os|] == os;
    }
  }

  /** Where the account of a stream is opened: the length of the stream if it is not. */
  function OpeningAt(h: seq<Event>): (k: nat)
    ensures k <= |h| && (k < |h| ==> h[k].body.AccountCreated?)
    ensures forall i :: 0 <= i < k ==> !h[i].body.AccountCreated?
  {
    if h == [] then 0 else if h[0].body.AccountCreated? then 0 else 1 + OpeningAt(h[1..])
  }

  ghost predicate OpenedOnce(h: seq<Event>) {
    forall i, j :: 0 <= i < j < |h| ==> !(h[i].body.AccountCreated? && h[j].body.AccountCreated?)
  }

  lemma {:induction false} NeverOpened(h: seq<Event>)
    requires forall e :: e in h ==> !e.body.AccountCreated?
    ensures Accounts.Balance(h) == None
  {
    if h != [] {
      assert h[|h| - 1] in h && forall e :: e in h[..|h| - 1] ==> e in h;
      NeverOpened(h[..|h| - 1]);
    }
  }

  /** The opening overwrites whatever came before it; after it everything counts. */
  lemma {:induction false} BalanceSinceOpening(a: seq<Event>, o: Event, z: seq<Event>)
    requires o.body.AccountCreated? && forall e :: e in z ==> !e.body.AccountCreated?
    ensures Accounts.Balance(a + [o] + z) == Some(o.body.balance + Total(z, Moved))
  {
    if z == [] {
      assert a + [o] + z == a + [o] && (a + [o])[..|a|] == a;
    } else {
      var front, last := z[..|z| - 1], z[|z| - 1];
      assert last in z && forall e :: e in front ==> e in z;
      BalanceSinceOpening(a, o, front);
      assert (a + [o] + z)[..|a + [o] + z| - 1] == a + [o] + front && (a + [o] + z)[|a + [o] + z| - 1] == last;
    }
  }

  lemma NotOpenedAgain(h: seq<Event>, i: nat)
    requires OpenedOnce(h) && OpeningAt(h) < i < |h|
    ensures !h[i].body.AccountCreated?
  {
  }

  lemma AroundIndex(h: seq<Event>, k: nat, z: seq<Event>)
    requires k < |h| && z == h[k + 1..]
    ensures h == h[..k] + [h[k]] + z
    ensures forall e :: e in z ==> exists i :: k < i < |h| && h[i] == e
  {
    forall e | e in z
      ensures exists i :: k < i < |h| && h[i] == e
    {
      var j :| 0 <= j < |z| && z[j] == e;
      assert h[k + 1 + j] == e;
    }
  }

  /** The three parts of a stream that is opened. */
  lemma OpeningSplits(h: seq<Event>, z: seq<Event>)
    requires OpenedOnce(h) && OpeningAt(h) < |h| && z == h[OpeningAt(h) + 1..]
    ensures h == h[..OpeningAt(h)] + [h[OpeningAt(h)]] + z && forall e :: e in z ==> !e.body.AccountCreated?
  {
    hide OpenedOnce;
    AroundIndex(h, OpeningAt(h), z);
    forall e | e in z
      ensures !e.body.AccountCreated?
    {
      var i :| OpeningAt(h) < i < |h| && h[i] == e;
      NotOpenedAgain(h, i);
    }
  }

  lemma BalanceIsTotal(h: seq<Event>)
    requires OpenedOnce(h)
    ensures var k := OpeningAt(h);
            Accounts.Balance(h)
              == if k == |h| then None else Some(h[k].body.balance + Total(h, Moved) - Total(h[..k], Moved))
  {
    hide Total, Accounts.BalanceFrom, OpenedOnce, OpeningAt;
    var k := OpeningAt(h);
    if k == |h| {
      NeverOpened(h);
    } else {
      OpeningSplits(h, h[k + 1..]);
      BalanceSinceOpening(h[..k], h[k], h[k + 1..]);
      TotalAppend(h[..k] + [h[k]], h[k + 1..], Moved);
      TotalAppend(h[..k], [h[k]], Moved);
      TotalOne(h[k], Moved);
    }
  }

  lemma {:induction false} StreamOpenedOnce(h: seq<Event>, id: Id)
    requires Chronicle(h) && forall e :: e in h ==> e.stream == id
    ensures OpenedOnce(h)
  {
    if h != [] {
      var front, last := h[..|h| - 1], h[|h| - 1];
      assert h == front + [last];
      StreamOpenedOnce(front, id);
      assert Fits(front, last);
      assert forall i :: 0 <= i < |front| ==> front[i] in front && front[i] == h[i];
    }
  }

  lemma PairMoves(h: seq<Event>, c: Id, e: Entry)
    requires e.placed.body == OrderCreated(e.order) && e.paid.body == FundsWithdrawn(-e.order.cost)
    requires e.paid.corr == c && OfOrder(h, c)
    ensures Total([e.placed, e.paid], Moved) == -e.order.cost
    ensures Total([e.placed, e.paid], (x: Event) => DirectlyMoved(h, x) - ListedCost(h, x))
         == if Dropped(h, e.order.id) then 0 else -e.order.cost
  {
    hide Total, Dropped, OfOrder;
    TotalTwo(e.placed, e.paid, Moved);
    TotalTwo(e.placed, e.paid, (x: Event) => DirectlyMoved(h, x) - ListedCost(h, x));
  }

  lemma UndoMoves(h: seq<Event>, c: Id, o: Order, e: Event, e': Event)
    requires IsUndo(c, o, e, e')
    ensures Total([e, e'], Moved) == o.cost
    ensures Total([e, e'], (x: Event) => DirectlyMoved(h, x) - ListedCost(h, x)) == 0
  {
    hide Total, Dropped, OfOrder;
    TotalTwo(e, e', Moved);
    TotalTwo(e, e', (x: Event) => DirectlyMoved(h, x) - ListedCost(h, x));
  }

  lemma AccountSideMoves(log: seq<Event>, c: Id, e: Entry, h: seq<Event>)
    requires AccountSide(log, c, e) && e.placed.body == OrderCreated(e.order) && e.paid.body == FundsWithdrawn(-e.order.cost)
    requires e.paid.corr == c && OfOrder(h, c) && (Dropped(h, e.order.id) <==> RolledBack(log, c))
    ensures Total(AccountPart(log, c), Moved) == Total(AccountPart(log, c), (x: Event) => DirectlyMoved(h, x) - ListedCost(h, x))
  {
    hide AccountPart, Total, Dropped, OfOrder;
    var part, w := AccountPart(log, c), (x: Event) => DirectlyMoved(h, x) - ListedCost(h, x);
    PairMoves(h, c, e);
    if RolledBack(log, c) {
      assert part == [e.placed, e.paid] + [part[2], part[3]];
      TotalAppend([e.placed, e.paid], [part[2], part[3]], Moved);
      TotalAppend([e.placed, e.paid], [part[2], part[3]], w);
      UndoMoves(h, c, e.order, part[2], part[3]);
    }
  }

  /** On the events of one order what moved is what the listed order costs. */
  lemma OrderMoves(s: System, b: Book, c: Id, h: seq<Event>)
    requires c in b && h == OfStream(s.log, b[c].order.accountId)
    requires Consistent(s, b)
    ensures Total(OfCorrelation(h, c), Moved) == Total(OfCorrelation(h, c), (e: Event) => DirectlyMoved(h, e) - ListedCost(h, e))
  {
    hide RunsOk, DueOk, WorkOk, CompensationOwed, RegistryOk, WorkerOk, History, BookOk, StreamsOk, Dropped, Total, AccountPart,
      AccountSide, RemovalSide, RolledBack;
    AccountPartIsOnStream(s.log, b, s.inventories, s.nextId, c);
    OrderAccountIsProper(b, s.inventories, s.nextId, c);
    PlacedIsOnStream(s.log, b, s.inventories, s.nextId, c);
    DroppedIffRolledBack(s, b, c);
    assert OfOrder(h, c);
    AccountSideMoves(s.log, c, b[c], h);
  }

  /** Events of no order, or of an order of another account, move what they say. */
  lemma OthersMove(s: System, b: Book, c: Id, id: Id)
    requires id !in s.inventories && (c in b ==> b[c].order.accountId != id)
    requires Consistent(s, b)
    ensures var h := OfStream(s.log, id);
            Total(OfCorrelation(h, c), Moved) == Total(OfCorrelation(h, c), (e: Event) => DirectlyMoved(h, e) - ListedCost(h, e))
  {
    hide RunsOk, DueOk, WorkOk, CompensationOwed, RegistryOk, WorkerOk, History;
    var h := OfStream(s.log, id);
    OfStreamMembers(s.log, id);
    OfCorrelationMembers(h, c);
    forall e | e in OfCorrelation(h, c)
      ensures Moved(e) == DirectlyMoved(h, e) - ListedCost(h, e)
    {
      OtherMoves(s, b, e, h);
    }
    TotalSame(OfCorrelation(h, c), Moved, (e: Event) => DirectlyMoved(h, e) - ListedCost(h, e));
  }

  lemma OtherMoves(s: System, b: Book, e: Event, h: seq<Event>)
    requires e in s.log && e.stream !in s.inventories && (e.corr in b ==> b[e.corr].order.accountId != e.stream)
    requires h == OfStream(s.log, e.stream)
    requires Consistent(s, b)
    ensures Moved(e) == DirectlyMoved(h, e) - ListedCost(h, e)
  {
    hide RunsOk, DueOk, WorkOk, CompensationOwed, RegistryOk, WorkerOk, History;
    OfStreamMembers(s.log, e.stream);
    OrderEventsAreOnAccount(s, b, e);
    if x :| x in h && x.corr == e.corr && x.body.OrderCreated? {
      OrderEventsAreOnAccount(s, b, x);
    }
  }

  lemma AccountPartOnAccount(s: System, b: Book, c: Id, e: Event)
    requires c in b && LogOk(s.log, b) && BookOk(b, s.inventories, s.nextId) && e in AccountPart(s.log, c)
    ensures e.stream == b[c].order.accountId
  {
    assert AccountSide(s.log, c, b[c]);
    OrderAccountIsProper(b, s.inventories, s.nextId, c);
  }

  lemma OrderEventsAreOnAccount(s: System, b: Book, e: Event)
    requires e in s.log && e.stream !in s.inventories
    requires Consistent(s, b)
    ensures e.corr in b ==> e.stream == b[e.corr].order.accountId
    ensures OrderBody(e.body) ==> e.corr in b
  {
    hide BookOk, AccountSide, RemovalSide, RunsOk, DueOk, WorkOk, CompensationOwed, RegistryOk, WorkerOk, History;
    var c := e.corr;
    if c in b {
      FilterMembers(s.log, (x: Event) => InAccountPart(x, c));
      AccountPartOnAccount(s, b, c, e);
    }
  }

  lemma MovesAgree(s: System, b: Book, id: Id, h: seq<Event>)
    requires id !in s.inventories && h == OfStream(s.log, id)
    requires Consistent(s, b)
    ensures Total(h, Moved) == Total(h, (e: Event) => DirectlyMoved(h, e) - ListedCost(h, e))
  {
    hide Consistent, OfCorrelation, Moved, DirectlyMoved, ListedCost;
    var w := (e: Event) => DirectlyMoved(h, e) - ListedCost(h, e);
    forall c
      ensures Total(OfCorrelation(h, c), Moved) == Total(OfCorrelation(h, c), w)
    {
      if c in b && b[c].order.accountId == id {
        OrderMoves(s, b, c, h);
      } else {
        OthersMove(s, b, c, id);
      }
    }
    TotalsByCorrelation(h, Moved, w);
  }

  lemma {:induction false} TotalOfDifference(h: seq<Event>, w: Event -> int, v: Event -> int)
    ensures Total(h, (e: Event) => w(e) - v(e)) == Total(h, w) - Total(h, v)
  {
    if h != [] {
      TotalOfDifference(h[..|h| - 1], w, v);
    }
  }

  /** What an account stream says the balance should be. */
  function Expected(h: seq<Event>, listed: seq<Order>): int
    requires OpeningAt(h) < |h|
  {
    h[OpeningAt(h)].body.balance + Total(h, (e: Event) => DirectlyMoved(h, e)) - CostOf(listed)
  }

  /** In every reachable state, also while sagas are under way, and for every account stream: there
      is a balance exactly when the account was opened, and then it is the opening balance plus
      deposits and direct withdrawals less the cost of exactly the orders listed, less what moved
      before the opening, which overwrites it. So the books balance exactly when that is nothing. */
  lemma LedgerConservation(ls: seq<Label>, s: System, id: Id)
    requires s == After(ls) && id !in s.inventories
    ensures Replay(Accounts.HANDLERS, OfStream(s.log, id)).Ok?
    ensures var h := OfStream(s.log, id);
            var account, k := Replay(Accounts.HANDLERS, h).value, OpeningAt(h);
            && (account.balance.Some? <==> k < |h|)
            && (k < |h| ==>
                  var expected := Expected(h, Accounts.OrdersOr(account.orders));
                  && account.balance == Some(expected - Total(h[..k], Moved))
                  && (account.balance == Some(expected) <==> Total(h[..k], Moved) == 0))
  {
    hide After, BookAfter, Inv, History, DirectlyMoved, Total, CostOf, OfStream, ReplayFrom;
    ReachableHistory(ls);
    ConsistentIs(s, BookAfter(ls));
    AccountStream(s, BookAfter(ls), id);
    LedgerOfStream(s, BookAfter(ls), id, OfStream(s.log, id));
  }

  lemma AccountStream(s: System, b: Book, id: Id)
    requires id !in s.inventories
    requires Consistent(s, b)
    ensures var h := OfStream(s.log, id);
            Chronicle(h) && Replay(Accounts.HANDLERS, h).Ok? && OpenedOnce(h)
  {
    hide BookOk, LogOk, RunsOk, DueOk, WorkOk, CompensationOwed, RegistryOk, WorkerOk, RunsFit, Created, Chronicle, ReplayFrom,
      OpenedOnce;
    StreamChronicle(s.log, id);
    OfStreamMembers(s.log, id);
    hide OfStream;
    StreamOpenedOnce(OfStream(s.log, id), id);
  }

  lemma LedgerOfStream(s: System, b: Book, id: Id, h: seq<Event>)
    requires id !in s.inventories && h == OfStream(s.log, id)
    requires OpenedOnce(h) && Chronicle(h) && Replay(Accounts.HANDLERS, h).Ok?
    requires Consistent(s, b)
    ensures var account, k := Replay(Accounts.HANDLERS, h).value, OpeningAt(h);
            if k == |h| then account.balance == None
            else account.balance == Some(Expected(h, Accounts.OrdersOr(account.orders)) - Total(h[..k], Moved))
  {
    hide Consistent, DirectlyMoved, ListedCost, Chronicle, Total, CostOf, Accounts.OrdersFrom, Accounts.BalanceFrom, ReplayFrom,
      OfStream, OpenedOnce;
    Accounts.ReplayIsFolds(Accounts.HANDLERS.initial, h);
    BalanceIsTotal(h);
    MovesAgree(s, b, id, h);
    var w, v := (e: Event) => DirectlyMoved(h, e), (e: Event) => ListedCost(h, e);
    TotalOfDifference(h, w, v);
    TotalSame(h, (e: Event) => w(e) - v(e), (e: Event) => DirectlyMoved(h, e) - ListedCost(h, e));
    OrdersAreUndropped(h);
    CostOfUndropped(h, h);
  }

  // ---- Goods ----

  function RemovedFrom(id: Id, e: Event): int {
    if e.body.InventoryRemoved? && e.stream == id then e.body.quantity else 0
  }

  /** The quantity of an order of the inventory that its account lists now. */
  function TakenBy(log: seq<Event>, id: Id, e: Event): int {
    if e.body.OrderCreated? && e.body.order.inventoryId == id && e.body.order in Listed(log, e.body.order.accountId)
    then e.body.order.quantity else 0
  }

  lemma {:induction false} RemovedIsTotal(log: seq<Event>, id: Id)
    ensures Inventories.Removed(OfStream(log, id)) == Total(log, (e: Event) => RemovedFrom(id, e))
  {
    if log != [] {
      var front, last := log[..|log| - 1], log[|log| - 1];
      RemovedIsTotal(front, id);
      assert log == front + [last];
      PushEvent(front, last, id);
      assert (OfStream(front, id) + [last])[..|OfStream(front, id)|] == OfStream(front, id);
    }
  }

  /** A stream that was created starts with its creation; all that follows is removals. */
  lemma {:induction false} CreatedAtHead(h: seq<Event>, id: Id)
    requires Chronicle(h) && Created(h, id) && forall e :: e in h ==> e.stream == id && InventoryBody(e.body)
    ensures h[0].body.InventoryCreated? && forall i :: 0 < i < |h| ==> h[i].body.InventoryRemoved?
  {
    var front, last := h[..|h| - 1], h[|h| - 1];
    assert h == front + [last];
    if front != [] {
      assert forall e :: e in front ==> e in h;
      assert front[0] in front;
      assert last in h && Fits(front, last);
      CreatedAtHead(front, id);
    }
  }

  lemma CreatedStream(log: seq<Event>, inventories: set<Id>, nextId: nat, id: Id)
    requires StreamsOk(log, inventories, nextId) && Created(log, id)
    ensures id in inventories
    ensures OfStream(log, id) != [] && forall e :: e in OfStream(log, id) ==> e.stream == id && InventoryBody(e.body)
  {
    OfStreamMembers(log, id);
    var e :| e in log && e.stream == id && e.body.InventoryCreated?;
    assert e in OfStream(log, id);
  }

  lemma QuantityOfInventory(s: System, b: Book, id: Id)
    requires Created(s.log, id)
    requires Consistent(s, b)
    ensures var h := OfStream(s.log, id);
            && h != [] && h[0].body.InventoryCreated?
            && (forall i :: 0 < i < |h| ==> h[i].body.InventoryRemoved?)
            && Replay(Inventories.HANDLERS, h)
               == Ok(Inventories.Inventory(h[0].body.name, Some(h[0].body.quantity - Inventories.Removed(h)), Some(h[0].body.price)))
  {
    hide BookOk, LogOk, StreamsOk, RunsOk, DueOk, WorkOk, CompensationOwed, RegistryOk, WorkerOk, RunsFit, Chronicle, Created;
    var h := OfStream(s.log, id);
    CreatedStream(s.log, s.inventories, s.nextId, id);
    StreamChronicle(s.log, id);
    CreatedOnStream(s.log, id);
    CreatedAtHead(h, id);
    Inventories.QuantityOfStream(h);
  }

  lemma PartsOfCorrelation(log: seq<Event>, c: Id, w: Event -> int)
    ensures Total(OfCorrelation(log, c), w) == Total(AccountPart(log, c), w) + Total(RemovalPart(log, c), w)
  {
    var cs := OfCorrelation(log, c);
    var p, q := (e: Event) => InAccountPart(e, c), (e: Event) => InRemovalPart(e, c);
    OfCorrelationMembers(log, c);
    TotalSplit(cs, p, q, w);
    FilterTwice(log, (e: Event) => e.corr == c, p, p);
    FilterTwice(log, (e: Event) => e.corr == c, q, q);
  }

  /** No account event removes anything. */
  lemma AccountPartRemoves(log: seq<Event>, c: Id, id: Id)
    ensures Total(AccountPart(log, c), (e: Event) => RemovedFrom(id, e)) == 0
  {
    FilterMembers(log, (e: Event) => InAccountPart(e, c));
    assert forall e :: e in AccountPart(log, c) ==> InAccountPart(e, c);
    hide Total, AccountPart;
    TotalZero(AccountPart(log, c), (e: Event) => RemovedFrom(id, e));
  }

  lemma RemovalPartTakes(log: seq<Event>, c: Id, id: Id)
    ensures Total(RemovalPart(log, c), (e: Event) => TakenBy(log, id, e)) == 0
  {
    FilterMembers(log, (e: Event) => InRemovalPart(e, c));
    assert forall e :: e in RemovalPart(log, c) ==> InRemovalPart(e, c);
    hide Total, RemovalPart;
    TotalZero(RemovalPart(log, c), (e: Event) => TakenBy(log, id, e));
  }

  lemma RemovalPartRemoves(log: seq<Event>, c: Id, e: Entry, id: Id)
    requires RemovalSide(log, c, e)
    ensures Total(RemovalPart(log, c), (x: Event) => RemovedFrom(id, x))
         == if e.phase.Removed? && e.order.inventoryId == id then e.order.quantity else 0
  {
    hide RemovalPart;
    var removal := RemovalPart(log, c);
    if e.phase.Removed? {
      assert removal == [removal[0]];
      TotalOne(removal[0], (x: Event) => RemovedFrom(id, x));
    }
  }

  lemma AccountSideTakes(log: seq<Event>, c: Id, e: Entry, id: Id)
    requires AccountSide(log, c, e) && e.placed.body == OrderCreated(e.order) && !e.paid.body.OrderCreated?
    ensures Total(AccountPart(log, c), (x: Event) => TakenBy(log, id, x)) == TakenBy(log, id, e.placed)
  {
    hide AccountPart, TakenBy;
    AccountPartTakes(log, AccountPart(log, c), e.placed, e.order, id);
  }

  lemma OrderTakes(s: System, b: Book, c: Id, id: Id)
    requires c in b && (b[c].phase.Removed? <==> !RolledBack(s.log, c))
    requires Consistent(s, b)
    ensures Total(OfCorrelation(s.log, c), (e: Event) => RemovedFrom(id, e)) == Total(OfCorrelation(s.log, c), (e: Event) => TakenBy(s.log, id, e))
  {
    hide StreamsOk, RunsOk, DueOk, WorkOk, CompensationOwed, RegistryOk, WorkerOk, History, BookOk, Listed, Total,
      AccountPart, RemovalPart, AccountSide, RemovalSide, RolledBack, RemovedFrom, OfCorrelation;
    PartsOfCorrelation(s.log, c, (e: Event) => RemovedFrom(id, e));
    PartsOfCorrelation(s.log, c, (e: Event) => TakenBy(s.log, id, e));
    OrderAccountIsProper(b, s.inventories, s.nextId, c);
    IsListed(s, b, c);
    AccountPartRemoves(s.log, c, id);
    RemovalPartTakes(s.log, c, id);
    RemovalPartRemoves(s.log, c, b[c], id);
    AccountSideTakes(s.log, c, b[c], id);
  }

  lemma IsListed(s: System, b: Book, c: Id)
    requires c in b
    requires Consistent(s, b)
    ensures b[c].order in Listed(s.log, b[c].order.accountId) <==> !RolledBack(s.log, c)
  {
    hide Consistent, RolledBack;
    ListedIffNotRolledBack(s, b, c);
  }

  /** Only the first event of an account part can take anything. */
  lemma AccountPartTakes(log: seq<Event>, part: seq<Event>, placed: Event, o: Order, id: Id)
    requires part != [] && part[0] == placed && placed.body == OrderCreated(o)
    requires forall i :: 0 < i < |part| ==> !part[i].body.OrderCreated?
    ensures Total(part, (e: Event) => TakenBy(log, id, e)) == TakenBy(log, id, placed)
  {
    var v := (e: Event) => TakenBy(log, id, e);
    var rest := part[1..];
    assert part == [placed] + rest;
    TotalAppend([placed], rest, v);
    TotalOne(placed, v);
    forall e | e in rest
      ensures v(e) == 0
    {
      var i :| 0 <= i < |rest| && rest[i] == e;
      assert part[i + 1] == e;
    }
    TotalZero(rest, v);
  }

  lemma OthersTake(s: System, b: Book, c: Id, id: Id)
    requires c !in b
    requires Consistent(s, b)
    ensures Total(OfCorrelation(s.log, c), (e: Event) => RemovedFrom(id, e)) == Total(OfCorrelation(s.log, c), (e: Event) => TakenBy(s.log, id, e))
  {
    hide BookOk, StreamsOk, RunsOk, DueOk, WorkOk, CompensationOwed, RegistryOk, WorkerOk, History, Listed;
    OfCorrelationMembers(s.log, c);
    TotalZero(OfCorrelation(s.log, c), (e: Event) => RemovedFrom(id, e));
    TotalZero(OfCorrelation(s.log, c), (e: Event) => TakenBy(s.log, id, e));
  }

  lemma GoodsAgree(s: System, b: Book, id: Id)
    requires forall c :: c in b ==> (b[c].phase.Removed? <==> !RolledBack(s.log, c))
    requires Consistent(s, b)
    ensures Total(s.log, (e: Event) => RemovedFrom(id, e)) == Total(s.log, (e: Event) => TakenBy(s.log, id, e))
  {
    hide Consistent, OfCorrelation, RemovedFrom, TakenBy, RolledBack;
    var w, v := (e: Event) => RemovedFrom(id, e), (e: Event) => TakenBy(s.log, id, e);
    forall c
      ensures Total(OfCorrelation(s.log, c), w) == Total(OfCorrelation(s.log, c), v)
    {
      if c in b {
        OrderTakes(s, b, c, id);
      } else {
        OthersTake(s, b, c, id);
      }
    }
    TotalsByCorrelation(s.log, w, v);
  }

  /** Once nothing is pending and no delivery has torn an order: what is missing from an inventory
      is the summed quantity of the orders of it that their accounts list. */
  lemma GoodsConservation(ls: seq<Label>, id: Id)
    requires Quiescent(After(ls)) && Created(After(ls).log, id)
    requires forall c :: c in BookAfter(ls) ==> !Torn(BookAfter(ls)[c])
    ensures var log := After(ls).log;
            var h := OfStream(log, id);
            && h != [] && h[0].body.InventoryCreated?
            && Replay(Inventories.HANDLERS, h).Ok?
            && var quantity := Replay(Inventories.HANDLERS, h).value.quantity;
               quantity == Some(h[0].body.quantity - Total(log, (e: Event) => TakenBy(log, id, e)))
  {
    hide After, BookAfter, RemovedFrom, TakenBy, RolledBack, History, Created;
    var s, b := After(ls), BookAfter(ls);
    ReachableHistory(ls);
    hide Inv;
    ConsistentIs(s, b);
    hide Consistent;
    forall c | c in b
      ensures b[c].phase.Removed? <==> !RolledBack(s.log, c)
    {
      hide Quiescent;
      PhasesAtQuiescence(s, b, c);
    }
    QuantityOfInventory(s, b, id);
    RemovedIsTotal(s.log, id);
    GoodsAgree(s, b, id);
  }

  lemma PhasesAtQuiescence(s: System, b: Book, c: Id)
    requires Quiescent(s) && c in b && !Torn(b[c])
    requires Consistent(s, b)
    ensures b[c].phase.Removed? <==> !RolledBack(s.log, c)
  {
    hide BookOk, LogOk, StreamsOk, RunsOk, DueOk, WorkOk, CompensationOwed, RegistryOk, WorkerOk, History, RolledBack;
    QuiescentPhases(s, b, c);
    PhaseCases(s, b, c);
  }

  /** In particular in every run without rejected deliveries. */
  lemma GoodsConservationWithoutRejections(ls: seq<Label>, id: Id)
    requires NoRejections(ls) && Quiescent(After(ls)) && Created(After(ls).log, id)
    ensures var log := After(ls).log;
            var h := OfStream(log, id);
            && h != [] && h[0].body.InventoryCreated?
            && Replay(Inventories.HANDLERS, h).Ok?
            && var quantity := Replay(Inventories.HANDLERS, h).value.quantity;
               quantity == Some(h[0].body.quantity - Total(log, (e: Event) => TakenBy(log, id, e)))
  {
    hide After, BookAfter, Quiescent, Created, TakenBy;
    WithoutRejectionsNoneTorn(ls);
    GoodsConservation(ls, id);
  }
}
