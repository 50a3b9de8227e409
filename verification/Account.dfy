/** The account aggregate of the demo and what compensation does to it.

    `balance` and `orders` start undefined. Adding to an undefined number gives NaN, which stays
    NaN, so an unopened balance is `None` and stays `None`. */
module Accounts {
  import opened Wrappers
  import opened Events
  import opened Aggregates

  datatype Account = Account(name: string, balance: Option<int>, orders: Option<seq<Order>>)

  function Add(balance: Option<int>, funds: int): Option<int> {
    if balance.Some? then Some(balance.value + funds) else None
  }

  function OrdersOr(orders: Option<seq<Order>>): seq<Order> {
    if orders.Some? then orders.value else []
  }

  function DropOrders(orders: seq<Order>, ids: set<Id>): seq<Order> {
    if orders == [] then []
    else
      var last := orders[|orders| - 1];
      if last.id in ids then DropOrders(orders[..|orders| - 1], ids)
      else DropOrders(orders[..|orders| - 1], ids) + [last]
  }

  /** The `@Apply` methods. */
  function Apply(s: Account, b: Body): Result<Account, Failure> {
    match b
    case AccountCreated(name, balance) => Ok(s.(name := name, balance := Some(balance)))
    case FundsDeposited(funds) => Ok(s.(balance := Add(s.balance, funds)))
    case FundsWithdrawn(funds) => Ok(s.(balance := Add(s.balance, funds)))
    case RollbackFundsWithdrawn(funds) => Ok(s.(balance := Add(s.balance, -funds)))
    case OrderCreated(order) => Ok(s.(orders := Some(OrdersOr(s.orders) + [order])))
    case RollbackOrderCreated(id) =>
      if s.orders.None? then Err(HandlerThrew)
      else Ok(s.(orders := Some(DropOrders(s.orders.value, {id}))))
    case FundsWithdrawalFailed(_) => Ok(s)
    case _ => Err(UnhandledEvent)
  }

  /** The `@Rollback` methods. */
  function Undo(b: Body): Option<Body> {
    match b
    case FundsWithdrawn(funds) => Some(RollbackFundsWithdrawn(funds))
    case OrderCreated(order) => Some(RollbackOrderCreated(order.id))
    case _ => None
  }

  /** A rolled-back order gives the replaying copy an order list of its own. */
  predicate OwnsOrders(p: seq<Event>) {
    exists e :: e in p && e.body.RollbackOrderCreated?
  }

  /** The orders that a replaying copy pushes onto the list it inherited. */
  function Pushed(p: seq<Event>): seq<Order> {
    if p == [] then []
    else
      var front, last := p[..|p| - 1], p[|p| - 1];
      if last.body.OrderCreated? && !OwnsOrders(front) then Pushed(front) + [last.body.order] else Pushed(front)
  }

  /** What a replaying copy leaves in the aggregate it was made from. */
  function Shared(s: Account, p: seq<Event>): Account {
    s.(orders := if s.orders.Some? then Some(s.orders.value + Pushed(p)) else None)
  }

  const HANDLERS: Handlers<Account> :=
    Handlers(Account("", None, None), (s: Account, b: Body) => Apply(s, b), (b: Body) => Undo(b), (s: Account) => false,
             (s: Account, p: seq<Event>) => Shared(s, p))

  lemma AccountUndoIsFinal()
    ensures UndoIsFinal(HANDLERS)
  {
  }

  /** The array behind `orders`. */
  class OrderList {
    var items: seq<Order>

    constructor (items: seq<Order>)
      ensures this.items == items
    {
      this.items := items;
    }
  }

  /** The aggregate object: each handler updates its own fields. `orders` starts undefined. */
  class AccountAggregate {
    var name: string
    var balance: Option<int>
    var orders: OrderList?

    function Fields(): Account
      reads this, orders
    {
      Account(name, balance, if orders == null then None else Some(orders.items))
    }

    constructor ()
      ensures Fields() == HANDLERS.initial
    {
      name, balance, orders := "", None, null;
    }

    method HandleAccountCreated(name: string, balance: int)
      modifies this`name, this`balance
      ensures this.name == name && this.balance == Some(balance)
    {
      this.balance := Some(balance);
      this.name := name;
    }

    method HandleDeposit(funds: int)
      modifies this`balance
      ensures balance == Add(old(balance), funds)
    {
      balance := Add(balance, funds);
    }

    method HandleWithdrawal(funds: int)
      modifies this`balance
      ensures balance == Add(old(balance), funds)
    {
      balance := Add(balance, funds);
    }

    method HandleRollbackWithdrawal(funds: int)
      modifies this`balance
      ensures balance == Add(old(balance), -funds)
    {
      balance := Add(balance, -funds);
    }

    /** `push` changes the array in place, whoever else holds it. */
    method HandleCreate(order: Order)
      modifies this`orders, orders
      ensures orders != null
      ensures if old(orders) == null then fresh(orders) && orders.items == [order]
              else orders == old(orders) && orders.items == old(orders.items) + [order]
    {
      if orders == null {
        orders := new OrderList([]);
      }
      orders.items := orders.items + [order];
    }

    /** `filter` makes a new array; it throws while `orders` is undefined. */
    method HandleRollbackOrderCreated(id: Id) returns (r: Result<(), Failure>)
      modifies this`orders
      ensures if old(orders) == null then r == Err(HandlerThrew) && orders == null
              else r == Ok(()) && orders != null && fresh(orders) && orders.items == DropOrders(old(orders.items), {id})
    {
      if orders == null {
        return Err(HandlerThrew);
      }
      var kept: seq<Order> := [];
      for i := 0 to |orders.items|
        invariant kept == DropOrders(orders.items[..i], {id})
      {
        assert orders.items[..i + 1][..i] == orders.items[..i];
        if orders.items[i].id != id {
          kept := kept + [orders.items[i]];
        }
      }
      assert orders.items[..|orders.items|] == orders.items;
      orders := new OrderList(kept);
      return Ok(());
    }

    /** The dispatch to the `@Apply` methods. */
    method Handle(b: Body) returns (r: Result<(), Failure>)
      modifies this, orders
      ensures match Apply(old(Fields()), b)
              case Ok(s) => r == Ok(()) && Fields() == s
              case Err(f) => r == Err(f) && unchanged(this) && Fields() == old(Fields())
      ensures old(orders) == null || b.RollbackOrderCreated? ==> orders == null || fresh(orders)
      ensures old(orders) != null && !b.RollbackOrderCreated? ==> orders == old(orders)
      ensures old(orders) != null && !b.OrderCreated? ==> old(orders).items == old(orders.items)
    {
      r := Ok(());
      match b
      case AccountCreated(name, balance) => HandleAccountCreated(name, balance);
      case FundsDeposited(funds) => HandleDeposit(funds);
      case FundsWithdrawn(funds) => HandleWithdrawal(funds);
      case RollbackFundsWithdrawn(funds) => HandleRollbackWithdrawal(funds);
      case OrderCreated(order) =>
        assert [] + [order] == [order];
        HandleCreate(order);
      case RollbackOrderCreated(id) => r := HandleRollbackOrderCreated(id);
      case FundsWithdrawalFailed(_) =>
      case _ => r := Err(UnhandledEvent);
    }

    /** `forEach` of `mergeContext`: every event of the stream on a new aggregate. */
    method Load(events: seq<Event>) returns (r: Result<(), Failure>)
      requires Fields() == HANDLERS.initial && orders == null
      modifies this
      ensures match Replay(HANDLERS, events)
              case Ok(s) => r == Ok(()) && Fields() == s && (orders == null || fresh(orders))
              case Err(f) => r == Err(f)
    {
      hide ReplayFrom;
      NothingReplayed(HANDLERS, HANDLERS.initial, events);
      for i := 0 to |events|
        invariant ReplayFrom(HANDLERS, HANDLERS.initial, events[..i]) == Ok(Fields())
        invariant orders == null || fresh(orders)
      {
        ReplayStep(HANDLERS, HANDLERS.initial, events, i);
        r := Handle(events[i].body);
        if r.Err? {
          return;
        }
      }
      assert events[..|events|] == events;
      r := Ok(());
    }

    /** `Object.create(this)`: every field reads the one of the original until it is assigned, and
        `orders` is the same array. */
    method Inherit() returns (copy: AccountAggregate)
      ensures fresh(copy) && copy.Fields() == Fields() && copy.orders == orders
    {
      copy := new AccountAggregate();
      copy.name, copy.balance, copy.orders := name, balance, orders;
    }

    /** The replay of `getAggregatePriorTo`. The copy is the replay of the prefix from the current
        fields; the original keeps its fields but for the orders that were pushed onto its list
        until a rolled-back order gave the copy a list of its own. */
    method ReplayOnCopy(p: seq<Event>) returns (copy: AccountAggregate, r: Result<(), Failure>)
      modifies orders
      ensures fresh(copy)
      ensures match ReplayFrom(HANDLERS, old(Fields()), p)
              case Ok(s) => r == Ok(()) && copy.Fields() == s && Fields() == Shared(old(Fields()), p)
              case Err(f) => r == Err(f)
    {
      hide ReplayFrom;
      copy := Inherit();
      NothingReplayed(HANDLERS, Fields(), p);
      NothingShared(Fields(), p);
      for i := 0 to |p|
        invariant fresh(copy)
        invariant ReplayFrom(HANDLERS, old(Fields()), p[..i]) == Ok(copy.Fields())
        invariant Fields() == Shared(old(Fields()), p[..i])
        invariant copy.orders == null || copy.orders == orders || fresh(copy.orders)
        invariant orders != null ==> (copy.orders == orders <==> !OwnsOrders(p[..i]))
      {
        ReplayStep(HANDLERS, old(Fields()), p, i);
        SharedStep(old(Fields()), p, i);
        r := copy.Handle(p[i].body);
        if r.Err? {
          return;
        }
      }
      assert p[..|p|] == p;
      r := Ok(());
    }
  }

  lemma NothingShared(s: Account, p: seq<Event>)
    ensures Shared(s, p[..0]) == s && !OwnsOrders(p[..0])
  {
    if s.orders.Some? {
      assert s.orders.value + [] == s.orders.value;
    }
  }

  lemma SharedStep(s: Account, p: seq<Event>, i: nat)
    requires i < |p|
    ensures OwnsOrders(p[..i + 1]) <==> OwnsOrders(p[..i]) || p[i].body.RollbackOrderCreated?
    ensures Shared(s, p[..i + 1])
         == if s.orders.Some? && p[i].body.OrderCreated? && !OwnsOrders(p[..i])
            then Shared(s, p[..i]).(orders := Some(Shared(s, p[..i]).orders.value + [p[i].body.order]))
            else Shared(s, p[..i])
  {
    assert p[..i + 1][..i] == p[..i];
    assert p[..i + 1] == p[..i] + [p[i]];
    if OwnsOrders(p[..i]) {
      var e :| e in p[..i] && e.body.RollbackOrderCreated?;
      assert e in p[..i + 1];
    }
    if p[i].body.RollbackOrderCreated? {
      assert p[i] in p[..i + 1];
    }
    if s.orders.Some? && p[i].body.OrderCreated? && !OwnsOrders(p[..i]) {
      assert s.orders.value + (Pushed(p[..i]) + [p[i].body.order]) == s.orders.value + Pushed(p[..i]) + [p[i].body.order];
    }
  }

  // The two parts of the state that compensation touches, as folds of their own that treat an
  // unset order list as empty.

  function BalanceStep(v: Option<int>, b: Body): Option<int> {
    match b
    case AccountCreated(_, balance) => Some(balance)
    case FundsDeposited(funds) => Add(v, funds)
    case FundsWithdrawn(funds) => Add(v, funds)
    case RollbackFundsWithdrawn(funds) => Add(v, -funds)
    case _ => v
  }

  function BalanceFrom(v: Option<int>, h: seq<Event>): Option<int> {
    if h == [] then v else BalanceStep(BalanceFrom(v, h[..|h| - 1]), h[|h| - 1].body)
  }

  function Balance(h: seq<Event>): Option<int> {
    BalanceFrom(None, h)
  }

  function OrdersStep(os: seq<Order>, b: Body): seq<Order> {
    match b
    case OrderCreated(order) => os + [order]
    case RollbackOrderCreated(id) => DropOrders(os, {id})
    case _ => os
  }

  function OrdersFrom(os: seq<Order>, h: seq<Event>): seq<Order> {
    if h == [] then os else OrdersStep(OrdersFrom(os, h[..|h| - 1]), h[|h| - 1].body)
  }

  function Orders(h: seq<Event>): seq<Order> {
    OrdersFrom([], h)
  }

  /** Where the aggregate replays at all, its balance and order list are the two folds. */
  lemma {:induction false} ReplayIsFolds(s: Account, h: seq<Event>)
    requires ReplayFrom(HANDLERS, s, h).Ok?
    ensures ReplayFrom(HANDLERS, s, h).value.balance == BalanceFrom(s.balance, h)
    ensures OrdersOr(ReplayFrom(HANDLERS, s, h).value.orders) == OrdersFrom(OrdersOr(s.orders), h)
  {
    if h != [] {
      ReplayIsFolds(s, h[..|h| - 1]);
    }
  }

  lemma {:induction false} BalanceFromAppend(v: Option<int>, h: seq<Event>, k: seq<Event>)
    ensures BalanceFrom(v, h + k) == BalanceFrom(BalanceFrom(v, h), k)
  {
    if k == [] {
      assert h + k == h;
    } else {
      BalanceFromAppend(v, h, k[..|k| - 1]);
      assert (h + k)[..|h + k| - 1] == h + k[..|k| - 1];
    }
  }

  lemma {:induction false} OrdersFromAppend(os: seq<Order>, h: seq<Event>, k: seq<Event>)
    ensures OrdersFrom(os, h + k) == OrdersFrom(OrdersFrom(os, h), k)
  {
    if k == [] {
      assert h + k == h;
    } else {
      OrdersFromAppend(os, h, k[..|k| - 1]);
      assert (h + k)[..|h + k| - 1] == h + k[..|k| - 1];
    }
  }

  /** Every event is one of the two that `AccountAggregate` can roll back. */
  ghost predicate AllReversible(es: seq<Event>) {
    forall e :: e in es ==> e.body.FundsWithdrawn? || e.body.OrderCreated?
  }

  function Withdrawn(es: seq<Event>): int {
    if es == [] then 0
    else Withdrawn(es[..|es| - 1]) + if es[|es| - 1].body.FundsWithdrawn? then es[|es| - 1].body.funds else 0
  }

  function OrderIds(es: seq<Event>): set<Id> {
    set e | e in es && e.body.OrderCreated? :: e.body.order.id
  }

  lemma {:induction false} WithdrawnReversed(es: seq<Event>)
    ensures Withdrawn(Reversed(es)) == Withdrawn(es)
  {
    if es != [] {
      var front, last := es[..|es| - 1], es[|es| - 1];
      WithdrawnReversed(front);
      assert Reversed(es) == [last] + Reversed(front);
      WithdrawnAppend([last], Reversed(front));
      assert [last][..0] == [];
    }
  }

  lemma {:induction false} WithdrawnAppend(es: seq<Event>, fs: seq<Event>)
    ensures Withdrawn(es + fs) == Withdrawn(es) + Withdrawn(fs)
  {
    if fs == [] {
      assert es + fs == es;
    } else {
      WithdrawnAppend(es, fs[..|fs| - 1]);
      assert (es + fs)[..|es + fs| - 1] == es + fs[..|fs| - 1];
    }
  }

  lemma ReversedMembers(es: seq<Event>)
    ensures forall e :: e in Reversed(es) <==> e in es
  {
    forall e | e in es
      ensures e in Reversed(es)
    {
      var i :| 0 <= i < |es| && es[i] == e;
      assert Reversed(es)[|es| - 1 - i] == e;
    }
  }

  lemma OrderIdsPush(es: seq<Event>, e: Event)
    ensures OrderIds(es + [e]) == if e.body.OrderCreated? then OrderIds(es) + {e.body.order.id} else OrderIds(es)
  {
    assert forall x :: x in es + [e] <==> x in es || x == e;
  }

  lemma CompensatePush(stream: Id, xs: seq<Event>, x: Event, c: Id, uuid: nat)
    requires Compensate(HANDLERS, stream, xs, c, uuid).Some? && Undo(x.body).Some?
    ensures Compensate(HANDLERS, stream, xs + [x], c, uuid)
         == Some(Compensate(HANDLERS, stream, xs, c, uuid).value + [Event(uuid + |xs|, stream, c, Undo(x.body).value)])
  {
    assert (xs + [x])[..|xs|] == xs;
  }

  lemma FoldsPush(v: Option<int>, os: seq<Order>, h: seq<Event>, e: Event)
    ensures BalanceFrom(v, h + [e]) == BalanceStep(BalanceFrom(v, h), e.body)
    ensures OrdersFrom(os, h + [e]) == OrdersStep(OrdersFrom(os, h), e.body)
    ensures Withdrawn(h + [e]) == Withdrawn(h) + if e.body.FundsWithdrawn? then e.body.funds else 0
  {
    assert (h + [e])[..|h|] == h;
  }

  /** The effect of compensating `xs` on the two folds. */
  ghost predicate Compensates(stream: Id, xs: seq<Event>, c: Id, uuid: nat, v: Option<int>, os: seq<Order>) {
    && Compensate(HANDLERS, stream, xs, c, uuid).Some?
    && var es := Compensate(HANDLERS, stream, xs, c, uuid).value;
       BalanceFrom(v, es) == Add(v, -Withdrawn(xs)) && OrdersFrom(os, es) == DropOrders(os, OrderIds(xs))
  }

  /** Compensating a list of events gives the withdrawn funds back and drops its orders. */
  lemma {:induction false} CompensationEffect(stream: Id, xs: seq<Event>, c: Id, uuid: nat, v: Option<int>, os: seq<Order>)
    requires AllReversible(xs)
    ensures Compensates(stream, xs, c, uuid, v, os)
  {
    if xs == [] {
      assert OrderIds(xs) == {};
      DropNothing(os, {});
    } else {
      hide Compensates;
      var front, last := xs[..|xs| - 1], xs[|xs| - 1];
      assert xs == front + [last] && last in xs;
      CompensationEffect(stream, front, c, uuid, v, os);
      if last.body.FundsWithdrawn? {
        WithdrawalCompensated(stream, front, last, c, uuid, v, os);
      } else {
        OrderCompensated(stream, front, last, c, uuid, v, os);
      }
    }
  }

  lemma WithdrawalCompensated(stream: Id, xs: seq<Event>, x: Event, c: Id, uuid: nat, v: Option<int>, os: seq<Order>)
    requires Compensates(stream, xs, c, uuid, v, os) && x.body.FundsWithdrawn?
    ensures Compensates(stream, xs + [x], c, uuid, v, os)
  {
    hide Compensate, BalanceFrom, OrdersFrom, Withdrawn, DropOrders, OrderIds;
    var es, e := Compensate(HANDLERS, stream, xs, c, uuid).value, Event(uuid + |xs|, stream, c, RollbackFundsWithdrawn(x.body.funds));
    CompensatePush(stream, xs, x, c, uuid);
    OrderIdsPush(xs, x);
    FoldsPush(v, os, es, e);
    FoldsPush(v, os, xs, x);
    assert BalanceFrom(v, es + [e]) == Add(BalanceFrom(v, es), -x.body.funds);
  }

  lemma OrderCompensated(stream: Id, xs: seq<Event>, x: Event, c: Id, uuid: nat, v: Option<int>, os: seq<Order>)
    requires Compensates(stream, xs, c, uuid, v, os) && x.body.OrderCreated?
    ensures Compensates(stream, xs + [x], c, uuid, v, os)
  {
    hide Compensate, BalanceFrom, OrdersFrom, Withdrawn, DropOrders, OrderIds;
    var es, e := Compensate(HANDLERS, stream, xs, c, uuid).value, Event(uuid + |xs|, stream, c, RollbackOrderCreated(x.body.order.id));
    CompensatePush(stream, xs, x, c, uuid);
    OrderIdsPush(xs, x);
    FoldsPush(v, os, es, e);
    FoldsPush(v, os, xs, x);
    DropTwice(os, OrderIds(xs), {x.body.order.id});
    assert OrdersFrom(os, es + [e]) == DropOrders(OrdersFrom(os, es), {x.body.order.id});
  }

  lemma {:induction false} DropMembers(orders: seq<Order>, ids: set<Id>)
    ensures forall o :: o in DropOrders(orders, ids) <==> o in orders && o.id !in ids
  {
    if orders != [] {
      DropMembers(orders[..|orders| - 1], ids);
      assert orders == orders[..|orders| - 1] + [orders[|orders| - 1]];
    }
  }

  /** Adding one order to a list before dropping. */
  lemma DropPush(os: seq<Order>, o: Order, ids: set<Id>)
    ensures DropOrders(os + [o], ids) == if o.id in ids then DropOrders(os, ids) else DropOrders(os, ids) + [o]
  {
    assert (os + [o])[..|os|] == os;
  }

  lemma {:induction false} DropNothing(os: seq<Order>, ids: set<Id>)
    ensures DropOrders(os, ids) == os <==> forall o :: o in os ==> o.id !in ids
  {
    if os != [] {
      var front, last := os[..|os| - 1], os[|os| - 1];
      assert os == front + [last];
      DropNothing(front, ids);
      DropMembers(os, ids);
      if last.id !in ids && DropOrders(os, ids) == os {
        assert DropOrders(os, ids)[..|front|] == DropOrders(front, ids);
      }
    }
  }

  lemma {:induction false} DropTwice(os: seq<Order>, a: set<Id>, b: set<Id>)
    ensures DropOrders(DropOrders(os, a), b) == DropOrders(os, a + b)
  {
    if os != [] {
      var front, last := os[..|os| - 1], os[|os| - 1];
      DropTwice(front, a, b);
      DropPush(DropOrders(front, a), last, b);
    }
  }

  /** The order list of a history and of the history without `c` agree on every other order. */
  lemma {:induction false} OtherOrdersAgree(h: seq<Event>, c: Id, ids: set<Id>)
    requires AllReversible(OfCorrelation(h, c))
    requires OrderIds(OfCorrelation(h, c)) <= ids
    ensures DropOrders(Orders(h), ids) == DropOrders(Orders(Without(h, c)), ids)
  {
    if h != [] {
      var front, last := h[..|h| - 1], h[|h| - 1];
      assert h == front + [last];
      PushEvent(front, last, c);
      ReversiblePrefix(front, last, c);
      OtherOrdersAgree(front, c, ids);
      OrdersPushAgree(Orders(front), Orders(Without(front, c)), last, c, ids);
      FoldsPush(None, [], front, last);
      FoldsPush(None, [], Without(front, c), last);
    }
  }

  lemma ReversiblePrefix(h: seq<Event>, e: Event, c: Id)
    requires AllReversible(OfCorrelation(h + [e], c))
    ensures AllReversible(OfCorrelation(h, c))
    ensures OrderIds(OfCorrelation(h, c)) <= OrderIds(OfCorrelation(h + [e], c))
    ensures e.corr == c ==> e.body.FundsWithdrawn? || e.body.OrderCreated?
    ensures e.corr == c && e.body.OrderCreated? ==> e.body.order.id in OrderIds(OfCorrelation(h + [e], c))
  {
    PushEvent(h, e, c);
    var all := OfCorrelation(h + [e], c);
    assert forall x :: x in OfCorrelation(h, c) ==> x in all;
    if e.corr == c {
      assert all[|all| - 1] == e;
      assert e in all;
    }
  }

  lemma OrdersPushAgree(os: seq<Order>, ps: seq<Order>, e: Event, c: Id, ids: set<Id>)
    requires DropOrders(os, ids) == DropOrders(ps, ids)
    requires e.corr == c ==> e.body.FundsWithdrawn? || (e.body.OrderCreated? && e.body.order.id in ids)
    ensures DropOrders(OrdersStep(os, e.body), ids)
         == DropOrders(if e.corr == c then ps else OrdersStep(ps, e.body), ids)
  {
    match e.body
    case OrderCreated(order) =>
      DropPush(os, order, ids);
      DropPush(ps, order, ids);
    case RollbackOrderCreated(id) =>
      DropCommutes(os, {id}, ids);
      DropCommutes(ps, {id}, ids);
    case _ =>
  }

  lemma DropCommutes(os: seq<Order>, a: set<Id>, b: set<Id>)
    ensures DropOrders(DropOrders(os, a), b) == DropOrders(DropOrders(os, b), a)
  {
    DropTwice(os, a, b);
    DropTwice(os, b, a);
    assert a + b == b + a;
  }

  /** What `c` withdrew before the last `AccountCreated`, which overwrites the balance. */
  function WithdrawnBeforeOpening(h: seq<Event>, c: Id): int {
    if h == [] then 0
    else if h[|h| - 1].body.AccountCreated? then Withdrawn(OfCorrelation(h[..|h| - 1], c))
    else WithdrawnBeforeOpening(h[..|h| - 1], c)
  }

  lemma {:induction false} BalanceWithout(h: seq<Event>, c: Id)
    requires AllReversible(OfCorrelation(h, c))
    ensures Keeps(h, c)
  {
    if h != [] {
      hide Keeps;
      var front, last := h[..|h| - 1], h[|h| - 1];
      assert h == front + [last];
      ReversiblePrefix(front, last, c);
      BalanceWithout(front, c);
      BalanceWithoutPush(front, last, c);
    }
  }

  ghost predicate Keeps(h: seq<Event>, c: Id) {
    Balance(h) == Add(Balance(Without(h, c)), Withdrawn(OfCorrelation(h, c)) - WithdrawnBeforeOpening(h, c))
  }

  lemma OpeningPush(h: seq<Event>, e: Event, c: Id)
    ensures WithdrawnBeforeOpening(h + [e], c)
         == if e.body.AccountCreated? then Withdrawn(OfCorrelation(h, c)) else WithdrawnBeforeOpening(h, c)
  {
    assert (h + [e])[..|h|] == h;
  }

  lemma BalanceWithoutPush(h: seq<Event>, e: Event, c: Id)
    requires e.corr == c ==> e.body.FundsWithdrawn? || e.body.OrderCreated?
    requires Keeps(h, c)
    ensures Keeps(h + [e], c)
  {
    PushEvent(h, e, c);
    OpeningPush(h, e, c);
    FoldsPush(None, [], h, e);
    FoldsPush(None, [], OfCorrelation(h, c), e);
    FoldsPush(None, [], Without(h, c), e);
    hide OfCorrelation, Without, Withdrawn, WithdrawnBeforeOpening, BalanceFrom, OrdersFrom;
    assert Balance(h + [e]) == BalanceStep(Balance(h), e.body);
  }

  lemma RollbackSucceeds(stream: Id, h: seq<Event>, c: Id, uuid: nat)
    ensures Rollback(HANDLERS, stream, h, c, uuid).Some? <==> AllReversible(OfCorrelation(h, c))
  {
    var cs := OfCorrelation(h, c);
    var xs := Reversed(cs);
    ReversedMembers(cs);
    CompensateShape(HANDLERS, stream, xs, c, uuid);
    if e :| e in cs && !(e.body.FundsWithdrawn? || e.body.OrderCreated?) {
      var i :| 0 <= i < |xs| && xs[i] == e;
      assert HANDLERS.undo(xs[i].body).None?;
    }
  }

  /** Whatever is interleaved with the events of `c`, rolling `c` back succeeds exactly when each
      of them can be reversed, and the result is the history with `c` erased: always for the
      balance unless `c` withdrew before a later opening, and for the orders exactly when no
      surviving order reuses an id of `c`. */
  lemma CompensationIsErasure(stream: Id, h: seq<Event>, c: Id, uuid: nat)
    requires Replay(HANDLERS, h).Ok?
    ensures Rollback(HANDLERS, stream, h, c, uuid).Some? <==> AllReversible(OfCorrelation(h, c))
    ensures AllReversible(OfCorrelation(h, c)) ==>
      var es := Rollback(HANDLERS, stream, h, c, uuid).value;
      && ApplyNewAll(HANDLERS, Replay(HANDLERS, h).value, es).Ok?
      && (Balance(h + es) == Balance(Without(h, c)) <==>
          Balance(h).None? || WithdrawnBeforeOpening(h, c) == 0)
      && (Orders(h + es) == Orders(Without(h, c)) <==>
          forall o :: o in Orders(Without(h, c)) ==> o.id !in OrderIds(OfCorrelation(h, c)))
  {
    hide AllReversible, Without, OfCorrelation, DropOrders, OrdersFrom, BalanceFrom, OrderIds, Withdrawn, WithdrawnBeforeOpening,
      Compensate, ReplayFrom, ApplyNewAll;
    RollbackSucceeds(stream, h, c, uuid);
    var cs := OfCorrelation(h, c);
    if AllReversible(cs) {
      CompensationApplies(stream, h, c, uuid);
      CompensationFolds(stream, h, c, uuid);
      BalanceWithout(h, c);
      OtherOrdersAgree(h, c, OrderIds(cs));
      DropNothing(Orders(Without(h, c)), OrderIds(cs));
    }
  }

  /** The two folds after a rollback, in terms of the folds before it. */
  lemma CompensationFolds(stream: Id, h: seq<Event>, c: Id, uuid: nat)
    requires AllReversible(OfCorrelation(h, c)) && Rollback(HANDLERS, stream, h, c, uuid).Some?
    ensures var es := Rollback(HANDLERS, stream, h, c, uuid).value;
            && Balance(h + es) == Add(Balance(h), -Withdrawn(OfCorrelation(h, c)))
            && Orders(h + es) == DropOrders(Orders(h), OrderIds(OfCorrelation(h, c)))
  {
    var cs := OfCorrelation(h, c);
    ReversedMembers(cs);
    hide OfCorrelation, Reversed, DropOrders, OrdersFrom, BalanceFrom, Withdrawn, Compensate;
    CompensationEffect(stream, Reversed(cs), c, uuid, Balance(h), Orders(h));
    WithdrawnReversed(cs);
    assert OrderIds(Reversed(cs)) == OrderIds(cs);
    var es := Rollback(HANDLERS, stream, h, c, uuid).value;
    BalanceFromAppend(None, h, es);
    OrdersFromAppend([], h, es);
  }

  lemma {:induction false} OrdersSetOnceOrdered(h: seq<Event>)
    requires Replay(HANDLERS, h).Ok?
    requires exists e :: e in h && e.body.OrderCreated?
    ensures Replay(HANDLERS, h).value.orders.Some?
  {
    var front, last := h[..|h| - 1], h[|h| - 1];
    if !last.body.OrderCreated? {
      var e :| e in h && e.body.OrderCreated?;
      assert e in front;
      OrdersSetOnceOrdered(front);
    }
  }

  lemma CompensationApplies(stream: Id, h: seq<Event>, c: Id, uuid: nat)
    requires Replay(HANDLERS, h).Ok? && AllReversible(OfCorrelation(h, c))
    requires Rollback(HANDLERS, stream, h, c, uuid).Some?
    ensures ApplyNewAll(HANDLERS, Replay(HANDLERS, h).value, Rollback(HANDLERS, stream, h, c, uuid).value).Ok?
  {
    var cs := OfCorrelation(h, c);
    var xs := Reversed(cs);
    ReversedMembers(cs);
    OfCorrelationMembers(h, c);
    if exists e :: e in cs && e.body.OrderCreated? {
      OrdersSetOnceOrdered(h);
    }
    CompensatorsApply(stream, xs, c, uuid, Replay(HANDLERS, h).value);
  }

  /** The compensating events of `xs` apply, and leave an order list where there was one. */
  ghost predicate Applies(stream: Id, xs: seq<Event>, c: Id, uuid: nat, s: Account) {
    && Compensate(HANDLERS, stream, xs, c, uuid).Some?
    && var r := ApplyNewAll(HANDLERS, s, Compensate(HANDLERS, stream, xs, c, uuid).value);
       r.Ok? && (s.orders.Some? ==> r.value.orders.Some?)
  }

  lemma {:induction false} CompensatorsApply(stream: Id, xs: seq<Event>, c: Id, uuid: nat, s: Account)
    requires AllReversible(xs)
    requires (exists e :: e in xs && e.body.OrderCreated?) ==> s.orders.Some?
    ensures Applies(stream, xs, c, uuid, s)
  {
    if xs != [] {
      var front, last := xs[..|xs| - 1], xs[|xs| - 1];
      assert xs == front + [last];
      assert last in xs;
      CompensatorsApply(stream, front, c, uuid, s);
      CompensatorApplies(stream, front, last, c, uuid, s);
    }
  }

  lemma CompensatorApplies(stream: Id, xs: seq<Event>, x: Event, c: Id, uuid: nat, s: Account)
    requires Applies(stream, xs, c, uuid, s)
    requires x.body.FundsWithdrawn? || (x.body.OrderCreated? && s.orders.Some?)
    ensures Applies(stream, xs + [x], c, uuid, s)
  {
    hide Compensate, ApplyNewAll;
    CompensatePush(stream, xs, x, c, uuid);
    var es := Compensate(HANDLERS, stream, xs, c, uuid).value;
    ApplyNewPush(s, es, Event(uuid + |xs|, stream, c, Undo(x.body).value));
  }

  lemma ApplyNewPush(s: Account, es: seq<Event>, e: Event)
    requires ApplyNewAll(HANDLERS, s, es).Ok?
    ensures ApplyNewAll(HANDLERS, s, es + [e]) == Apply(ApplyNewAll(HANDLERS, s, es).value, e.body)
  {
    assert (es + [e])[..|es|] == es;
  }

  /** One opening, at the head, and no order id used twice. */
  ghost predicate WellFormed(h: seq<Event>) {
    && h != [] && h[0].body.AccountCreated?
    && (forall i :: 0 < i < |h| ==> !h[i].body.AccountCreated?)
    && forall i, j :: 0 <= i < j < |h| && h[i].body.OrderCreated? && h[j].body.OrderCreated? ==>
         h[i].body.order.id != h[j].body.order.id
  }

  lemma SurvivorsAreOthers(h: seq<Event>, c: Id, o: Order)
    requires WellFormed(h) && o in Orders(Without(h, c))
    ensures o.id !in OrderIds(OfCorrelation(h, c))
  {
    OrderHasEvent(Without(h, c), o);
    WithoutMembers(h, c);
    OfCorrelationMembers(h, c);
    var e :| e in Without(h, c) && e.body == OrderCreated(o);
    if e' :| e' in OfCorrelation(h, c) && e'.body.OrderCreated? && e'.body.order.id == o.id {
      assert false;
    }
  }

  /** On well-formed histories compensation is erasure outright. */
  lemma CompensationErasesWellFormed(stream: Id, h: seq<Event>, c: Id, uuid: nat)
    requires Replay(HANDLERS, h).Ok? && WellFormed(h)
    requires AllReversible(OfCorrelation(h, c))
    ensures Rollback(HANDLERS, stream, h, c, uuid).Some?
    ensures var after := h + Rollback(HANDLERS, stream, h, c, uuid).value;
            && Replay(HANDLERS, after).Ok?
            && Replay(HANDLERS, after).value.balance == Balance(Without(h, c))
            && OrdersOr(Replay(HANDLERS, after).value.orders) == Orders(Without(h, c))
  {
    CompensationIsErasure(stream, h, c, uuid);
    var es := Rollback(HANDLERS, stream, h, c, uuid).value;
    OpeningAtHead(h, c);
    forall o | o in Orders(Without(h, c))
      ensures o.id !in OrderIds(OfCorrelation(h, c))
    {
      SurvivorsAreOthers(h, c, o);
    }
    ReplayAppend(HANDLERS, HANDLERS.initial, h, es);
    NewIsReplay(HANDLERS, Replay(HANDLERS, h).value, es);
    ReplayIsFolds(HANDLERS.initial, h + es);
  }

  lemma {:induction false} OpeningAtHead(h: seq<Event>, c: Id)
    requires h != [] && forall i :: 0 < i < |h| ==> !h[i].body.AccountCreated?
    ensures WithdrawnBeforeOpening(h, c) == 0
  {
    var front := h[..|h| - 1];
    if front == [] {
      assert OfCorrelation(front, c) == [];
    } else {
      OpeningAtHead(front, c);
    }
  }

  lemma {:induction false} OrderHasEvent(h: seq<Event>, o: Order)
    requires o in Orders(h)
    ensures exists e :: e in h && e.body == OrderCreated(o)
  {
    var front, last := h[..|h| - 1], h[|h| - 1];
    if last.body == OrderCreated(o) {
      assert last in h;
    } else {
      if last.body.RollbackOrderCreated? {
        DropMembers(Orders(front), {last.body.orderId});
      }
      OrderHasEvent(front, o);
      var e :| e in front && e.body == OrderCreated(o);
      assert e in h;
    }
  }

  // ---- The copy made by `getAggregatePriorTo` ----

  predicate Opens(p: seq<Event>) {
    exists e :: e in p && e.body.AccountCreated?
  }

  predicate Places(p: seq<Event>) {
    exists e :: e in p && e.body.OrderCreated?
  }

  function RolledBackIds(p: seq<Event>): set<Id> {
    set e | e in p && e.body.RollbackOrderCreated? :: e.body.orderId
  }

  lemma {:induction false} BalanceFromAnywhere(v: Option<int>, p: seq<Event>)
    ensures if Opens(p) then Balance(p).Some? && BalanceFrom(v, p) == Balance(p)
            else Balance(p).None? && (BalanceFrom(v, p).Some? <==> v.Some?)
  {
    if p != [] {
      var front, last := p[..|p| - 1], p[|p| - 1];
      BalanceFromAnywhere(v, front);
      assert p == front + [last];
    }
  }

  lemma {:induction false} DropAppend(os: seq<Order>, ps: seq<Order>, ids: set<Id>)
    ensures DropOrders(os + ps, ids) == DropOrders(os, ids) + DropOrders(ps, ids)
  {
    if ps == [] {
      assert os + ps == os;
    } else {
      var front, last := ps[..|ps| - 1], ps[|ps| - 1];
      DropAppend(os, front, ids);
      assert os + ps == (os + front) + [last];
      DropPush(os + front, last, ids);
    }
  }

  /** What was listed before is only thinned out; what is listed anew does not depend on it. */
  lemma {:induction false} OrdersFromAnywhere(os: seq<Order>, p: seq<Event>)
    ensures OrdersFrom(os, p) == DropOrders(os, RolledBackIds(p)) + Orders(p)
  {
    if p == [] {
      assert RolledBackIds(p) == {};
      DropNothing(os, {});
    } else {
      var front, last := p[..|p| - 1], p[|p| - 1];
      assert p == front + [last];
      OrdersFromAnywhere(os, front);
      IdsPush(front, last);
      if last.body.RollbackOrderCreated? {
        DropAppend(DropOrders(os, RolledBackIds(front)), Orders(front), {last.body.orderId});
        DropTwice(os, RolledBackIds(front), {last.body.orderId});
      }
    }
  }

  lemma IdsPush(p: seq<Event>, e: Event)
    ensures RolledBackIds(p + [e]) == if e.body.RollbackOrderCreated? then RolledBackIds(p) + {e.body.orderId} else RolledBackIds(p)
  {
    assert forall x :: x in p + [e] <==> x in p || x == e;
  }

  /** A prefix that replays from nothing replays from anywhere. */
  ghost predicate Alike(s: Account, copy: Account, prior: Account, p: seq<Event>) {
    && (if Opens(p) then copy.name == prior.name else copy.name == s.name && prior.name == "")
    && (prior.orders.Some? <==> Places(p))
    && (copy.orders.Some? <==> s.orders.Some? || Places(p))
  }

  lemma {:induction false} ReplaysFromAnywhere(s: Account, p: seq<Event>)
    requires Replay(HANDLERS, p).Ok?
    ensures ReplayFrom(HANDLERS, s, p).Ok?
    ensures Alike(s, ReplayFrom(HANDLERS, s, p).value, Replay(HANDLERS, p).value, p)
  {
    if p != [] {
      hide Alike;
      var front, last := p[..|p| - 1], p[|p| - 1];
      assert p == front + [last];
      ReplaysFromAnywhere(s, front);
      AlikePush(s, ReplayFrom(HANDLERS, s, front).value, Replay(HANDLERS, front).value, front, last);
    }
  }

  lemma KindsPush(p: seq<Event>, e: Event)
    ensures Opens(p + [e]) <==> Opens(p) || e.body.AccountCreated?
    ensures Places(p + [e]) <==> Places(p) || e.body.OrderCreated?
  {
    assert forall x :: x in p + [e] <==> x in p || x == e;
  }

  lemma AlikePush(s: Account, copy: Account, prior: Account, p: seq<Event>, e: Event)
    requires Alike(s, copy, prior, p) && Apply(prior, e.body).Ok?
    ensures Apply(copy, e.body).Ok? && Alike(s, Apply(copy, e.body).value, Apply(prior, e.body).value, p + [e])
  {
    KindsPush(p, e);
    hide Opens, Places;
  }

  /** When the copy is the state before the event: field by field, the condition on the current
      fields and on the prefix under which inheriting them does no harm. */
  lemma PriorCopyIsPriorState(current: Account, p: seq<Event>)
    requires Replay(HANDLERS, p).Ok?
    ensures ReplayFrom(HANDLERS, current, p).Ok?
    ensures var copy, prior := ReplayFrom(HANDLERS, current, p).value, Replay(HANDLERS, p).value;
            && (copy.name == prior.name <==> current.name == "" || Opens(p))
            && (copy.balance == prior.balance <==> current.balance.None? || Opens(p))
            && (OrdersOr(copy.orders) == OrdersOr(prior.orders) <==>
                forall o :: o in OrdersOr(current.orders) ==> o.id in RolledBackIds(p))
            && (copy.orders.Some? == prior.orders.Some? <==> current.orders.None? || Places(p))
  {
    hide ReplayFrom, OrdersFrom, BalanceFrom, DropOrders, RolledBackIds;
    ReplaysFromAnywhere(current, p);
    ReplayIsFolds(current, p);
    ReplayIsFolds(HANDLERS.initial, p);
    BalanceFromAnywhere(current.balance, p);
    OrdersFromAnywhere(OrdersOr(current.orders), p);
    DropMembers(OrdersOr(current.orders), RolledBackIds(p));
    var kept := DropOrders(OrdersOr(current.orders), RolledBackIds(p));
    assert kept + Orders(p) == Orders(p) <==> kept == [] by {
      assert |kept + Orders(p)| == |kept| + |Orders(p)|;
      if kept == [] {
        assert [] + Orders(p) == Orders(p);
      }
    }
    if kept != [] {
      assert kept[0] in kept;
    }
  }

  /** When the replay leaves the original as it was: it has no list to share, or the prefix places
      no order before it rolls one back. */
  lemma OriginalIsKept(s: Account, p: seq<Event>)
    ensures Shared(s, p) == s <==>
      s.orders.None? || forall i :: 0 <= i < |p| && p[i].body.OrderCreated? ==> OwnsOrders(p[..i])
  {
    PushedNothing(p);
    if s.orders.Some? {
      assert |s.orders.value + Pushed(p)| == |s.orders.value| + |Pushed(p)|;
      if Pushed(p) == [] {
        assert s.orders.value + [] == s.orders.value;
      }
    }
  }

  lemma {:induction false} PushedNothing(p: seq<Event>)
    ensures Pushed(p) == [] <==> forall i :: 0 <= i < |p| && p[i].body.OrderCreated? ==> OwnsOrders(p[..i])
  {
    if p != [] {
      var front, last := p[..|p| - 1], p[|p| - 1];
      PushedNothing(front);
      assert forall i :: 0 <= i < |front| ==> front[..i] == p[..i] && front[i] == p[i];
      assert p[..|front|] == front;
    }
  }
}
