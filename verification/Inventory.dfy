/** The inventory aggregate of the demo. Its unset numbers behave like those of an account. */
module Inventories {
  import opened Wrappers
  import opened Events
  import opened Aggregates

  /** The fields, which are also the projection row. */
  datatype Inventory = Inventory(name: string, quantity: Option<int>, price: Option<int>)

  function Apply(s: Inventory, b: Body): Result<Inventory, Failure> {
    match b
    case InventoryCreated(name, quantity, price) => Ok(Inventory(name, Some(quantity), Some(price)))
    case InventoryRemoved(quantity) =>
      Ok(s.(quantity := if s.quantity.Some? then Some(s.quantity.value - quantity) else None))
    case InventoryCreatedFailed(_) => Ok(s)
    case _ => Err(UnhandledEvent)
  }

  const HANDLERS: Handlers<Inventory> :=
    Handlers(Inventory("", None, None), (s: Inventory, b: Body) => Apply(s, b), (b: Body) => None, (s: Inventory) => false,
             (s: Inventory, p: seq<Event>) => s)

  class InventoryAggregate {
    var name: string
    var quantity: Option<int>
    var price: Option<int>

    function Fields(): Inventory
      reads this
    {
      Inventory(name, quantity, price)
    }

    constructor ()
      ensures Fields() == HANDLERS.initial
    {
      name, quantity, price := "", None, None;
    }

    method HandleCreate(name: string, quantity: int, price: int)
      modifies this
      ensures Fields() == Inventory(name, Some(quantity), Some(price))
    {
      this.name := name;
      this.price := Some(price);
      this.quantity := Some(quantity);
    }

    method HandleRemove(removed: int)
      modifies this`quantity
      ensures quantity == if old(quantity).Some? then Some(old(quantity).value - removed) else None
    {
      if quantity.Some? {
        quantity := Some(quantity.value - removed);
      }
    }

    /** The dispatch to the `@Apply` methods. */
    method Handle(b: Body) returns (r: Result<(), Failure>)
      modifies this
      ensures match Apply(old(Fields()), b)
              case Ok(s) => r == Ok(()) && Fields() == s
              case Err(f) => r == Err(f) && unchanged(this)
    {
      r := Ok(());
      match b
      case InventoryCreated(name, quantity, price) => HandleCreate(name, quantity, price);
      case InventoryRemoved(quantity) => HandleRemove(quantity);
      case InventoryCreatedFailed(_) =>
      case _ => r := Err(UnhandledEvent);
    }

    /** `forEach` of `mergeContext`: every event of the stream on a new aggregate. */
    method Load(events: seq<Event>) returns (r: Result<(), Failure>)
      requires Fields() == HANDLERS.initial
      modifies this
      ensures match Replay(HANDLERS, events)
              case Ok(s) => r == Ok(()) && Fields() == s
              case Err(f) => r == Err(f)
    {
      hide ReplayFrom;
      NothingReplayed(HANDLERS, HANDLERS.initial, events);
      for i := 0 to |events|
        invariant ReplayFrom(HANDLERS, HANDLERS.initial, events[..i]) == Ok(Fields())
      {
        ReplayStep(HANDLERS, HANDLERS.initial, events, i);
        r := Handle(events[i].body);
        if r.Err? {
          return;
        }
      }
      assert events[..|events|] == events;
      r := Ok(());
    }
  }

  function Removed(h: seq<Event>): int {
    if h == [] then 0
    else Removed(h[..|h| - 1]) + if h[|h| - 1].body.InventoryRemoved? then h[|h| - 1].body.quantity else 0
  }

  /** A stream that starts with its creation and is never created again: the quantity is the
      opening quantity less everything removed. */
  lemma {:induction false} QuantityOfStream(h: seq<Event>)
    requires h != [] && h[0].body.InventoryCreated?
    requires forall i :: 0 < i < |h| ==> h[i].body.InventoryRemoved? || h[i].body.InventoryCreatedFailed?
    ensures Replay(HANDLERS, h)
         == Ok(Inventory(h[0].body.name, Some(h[0].body.quantity - Removed(h)), Some(h[0].body.price)))
  {
    var front := h[..|h| - 1];
    if front == [] {
      assert ReplayFrom(HANDLERS, HANDLERS.initial, front) == Ok(HANDLERS.initial);
      assert Removed(front) == 0;
    } else {
      QuantityOfStream(front);
    }
  }
}
