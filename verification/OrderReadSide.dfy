/** The inventory rows follow the streams: what a row shows once its events have been delivered. */
module OrderReadSide {
  import opened Wrappers
  import opened Events
  import opened Aggregates
  import opened Messages
  import opened Decisions
  import opened OrderSystem
  import opened OrderInvariant
  import opened OrderPreservation
  import opened OrderRuns
  import opened OrderHistory
  import opened LiveOrders
  import opened OrderAtomicity
  import opened OrderLedger
  import opened Totals
  import Inventories
  import Sagas

  predicate RowBody(b: Body) {
    b.InventoryCreated? || b.InventoryRemoved?
  }

  /** The inventories whose latest delivery was rejected: it saved nothing. */
  function StaleNext(s: System, stale: set<Id>, l: Label): set<Id>
    requires Enabled(s, l)
  {
    match l
    case Settle(rejected) =>
      var e := s.delivery.value.event;
      if !RowBody(e.body) then stale else if rejected then stale + {e.stream} else stale - {e.stream}
    case _ => stale
  }

  function Stale(ls: seq<Label>): set<Id> {
    if ls == [] then {}
    else
      var front, l := ls[..|ls| - 1], ls[|ls| - 1];
      if Enabled(After(front), l) then StaleNext(After(front), Stale(front), l) else Stale(front)
  }

  predicate Announced(events: seq<Event>, id: Id) {
    exists e :: e in events && e.stream == id
  }

  predicate InDelivery(s: System, id: Id) {
    s.delivery.Some? && !s.delivery.value.settled && s.delivery.value.event.stream == id
  }

  /** What the projection handlers would save now. */
  function RowOf(log: seq<Event>, id: Id): Option<Row> {
    match Replay(Inventories.HANDLERS, OfStream(log, id))
    case Ok(inventory) => Project(inventory)
    case Err(_) => None
  }

  predicate RowCurrent(s: System, id: Id) {
    id in s.rows && Some(s.rows[id]) == RowOf(s.log, id)
  }

  /** A delivery under way has read everything, or another one will. */
  ghost predicate ReadsAll(s: System) {
    forall id :: InDelivery(s, id) ==> s.delivery.value.snapshot == OfStream(s.log, id) || Announced(s.events, id)
  }

  ghost predicate Converging(s: System, stale: set<Id>) {
    && ReadsAll(s)
    && forall id :: Created(s.log, id) ==> id in stale || Announced(s.events, id) || InDelivery(s, id) || RowCurrent(s, id)
  }

  lemma AnnouncedGrows(events: seq<Event>, es: seq<Event>, id: Id)
    ensures Announced(events + es, id) <==> Announced(events, id) || Announced(es, id)
  {
    if Announced(events, id) {
      var e :| e in events && e.stream == id;
      assert e in events + es;
    }
    if Announced(es, id) {
      var e :| e in es && e.stream == id;
      assert e in events + es;
    }
  }

  /** A stream without a new event stays what it was. */
  lemma OtherStreams(log: seq<Event>, es: seq<Event>, id: Id)
    requires !Announced(es, id)
    ensures OfStream(log + es, id) == OfStream(log, id) && (Created(log + es, id) <==> Created(log, id))
  {
    FilterAppend(log, es, (e: Event) => e.stream == id);
    OfStreamNone(es, id);
    OfStreamMembers(log + es, id);
    OfStreamMembers(log, id);
    CreatedOnStream(log, id);
    CreatedOnStream(log + es, id);
  }

  /** Store, then publish: what is appended is announced. */
  lemma AppendConverges(s: System, stale: set<Id>, es: seq<Event>, s': System)
    requires s'.log == s.log + es && s'.events == s.events + es && s'.delivery == s.delivery && s'.rows == s.rows
    requires Converging(s, stale)
    ensures Converging(s', stale)
  {
    forall id
      ensures InDelivery(s', id) ==> s'.delivery.value.snapshot == OfStream(s'.log, id) || Announced(s'.events, id)
      ensures Created(s'.log, id) ==> id in stale || Announced(s'.events, id) || InDelivery(s', id) || RowCurrent(s', id)
    {
      AnnouncedGrows(s.events, es, id);
      if !Announced(es, id) {
        OtherStreams(s.log, es, id);
      }
    }
  }

  lemma TakeEventConverges(s: System, stale: set<Id>, i: nat, s': System)
    requires Enabled(s, TakeEvent(i)) && s' == Step(s, TakeEvent(i))
    requires Converging(s, stale)
    ensures Converging(s', stale)
  {
    var e := s.events[i];
    forall id
      ensures Announced(s.events, id) ==> Announced(s'.events, id) || id == e.stream
    {
      if Announced(s.events, id) && id != e.stream {
        var x :| x in s.events && x.stream == id;
        var j :| 0 <= j < |s.events| && s.events[j] == x;
        assert s'.events[if j < i then j else j - 1] == x;
      }
    }
  }

  /** Every event of a created inventory has a projection handler, and that finds what to save. */
  lemma CreatedProjects(s: System, b: Book, id: Id)
    requires Created(s.log, id)
    requires Consistent(s, b)
    ensures RowOf(s.log, id).Some?
    ensures forall e :: e in s.log && e.stream == id ==> RowBody(e.body)
  {
    hide Consistent;
    QuantityOfInventory(s, b, id);
    OfStreamMembers(s.log, id);
    var h := OfStream(s.log, id);
    forall e | e in s.log && e.stream == id
      ensures RowBody(e.body)
    {
      var i :| 0 <= i < |h| && h[i] == e;
    }
  }

  lemma SaveRowOf(rows: map<Id, Row>, e: Event, log: seq<Event>)
    requires RowBody(e.body) && RowOf(log, e.stream).Some?
    ensures SaveRow(rows, e, OfStream(log, e.stream)) == rows[e.stream := RowOf(log, e.stream).value]
  {
  }

  lemma SaveRowKeepsOthers(rows: map<Id, Row>, e: Event, snapshot: seq<Event>, id: Id)
    requires id != e.stream || !RowBody(e.body)
    ensures id in SaveRow(rows, e, snapshot) <==> id in rows
    ensures id in rows ==> SaveRow(rows, e, snapshot)[id] == rows[id]
  {
  }

  lemma SettleConverges(s: System, b: Book, stale: set<Id>, rejected: bool, s': System, stale': set<Id>)
    requires Enabled(s, Settle(rejected)) && s' == Step(s, Settle(rejected)) && stale' == StaleNext(s, stale, Settle(rejected))
    requires Consistent(s, b)
    requires Converging(s, stale)
    ensures Converging(s', stale')
  {
    hide Step, RowOf, SaveRow, Created, Announced, Sagas.Register, Sagas.RollbackMessages, Consistent;
    SettleStep(s, rejected);
    var e := s.delivery.value.event;
    DeliveredInLog(s, b);
    forall id | Created(s.log, id)
      ensures id in stale' || Announced(s'.events, id) || RowCurrent(s', id)
    {
      if id == e.stream {
        CreatedProjects(s, b, id);
        if !rejected && !Announced(s.events, id) {
          assert InDelivery(s, id);
          SaveRowOf(s.rows, e, s.log);
        }
      } else {
        SaveRowKeepsOthers(s.rows, e, s.delivery.value.snapshot, id);
      }
    }
  }

  lemma DeliveredInLog(s: System, b: Book)
    requires s.delivery.Some? && !s.delivery.value.settled
    requires Consistent(s, b)
    ensures s.delivery.value.event in s.log
  {
    hide BookOk, LogOk, StreamsOk, RunsOk, WorkOk, CompensationOwed, RegistryOk, WorkerOk, History, Due;
    DeliveredIsDue(s, b);
  }

  lemma FinishConverges(s: System, stale: set<Id>, l: Label, s': System)
    requires l.Finish? || l.FinishCommand?
    requires Enabled(s, l) && s' == Step(s, l)
    requires Converging(s, stale)
    ensures Converging(s', stale)
  {
    hide Converging, Decide, Sagas.RollbackMessages;
    AppendConverges(s, stale, s'.log[|s.log|..], s');
  }

  lemma OthersConverge(s: System, stale: set<Id>, l: Label, s': System)
    requires l.Request? || l.TakeCommand? || l.PublishNext? || l.Acknowledge?
    requires Enabled(s, l) && s' == Step(s, l)
    requires Converging(s, stale)
    ensures Converging(s', stale)
  {
  }

  lemma StepConverges(s: System, b: Book, stale: set<Id>, l: Label, s': System, stale': set<Id>)
    requires Enabled(s, l) && s' == Step(s, l) && stale' == StaleNext(s, stale, l)
    requires Consistent(s, b)
    requires Converging(s, stale)
    ensures Converging(s', stale')
  {
    hide Step, Consistent, Converging;
    match l
    case Finish(_, _) => FinishConverges(s, stale, l, s');
    case FinishCommand => FinishConverges(s, stale, l, s');
    case TakeEvent(i) => TakeEventConverges(s, stale, i, s');
    case Settle(rejected) => SettleConverges(s, b, stale, rejected, s', stale');
    case _ => OthersConverge(s, stale, l, s');
  }

  lemma {:induction false} ReachableConverging(ls: seq<Label>)
    ensures Converging(After(ls), Stale(ls))
  {
    hide Step, Enabled, Consistent, Inv, History, StaleNext;
    if ls == [] {
      assert forall id :: !Created([], id);
    } else {
      var front, l := ls[..|ls| - 1], ls[|ls| - 1];
      ReachableConverging(front);
      ReachableHistory(front);
      ConsistentIs(After(front), BookAfter(front));
      if Enabled(After(front), l) {
        StepConverges(After(front), BookAfter(front), Stale(front), l, After(ls), Stale(ls));
      }
    }
  }

  /** Whenever no event of a created inventory is queued or in delivery, and its latest delivery was
      not rejected, its row shows name and price of its creation and the quantity that is left by its
      whole stream. */
  lemma ReadSideConvergence(ls: seq<Label>, s: System, id: Id)
    requires s == After(ls) && Created(s.log, id)
    requires id !in Stale(ls) && !Announced(s.events, id) && !InDelivery(s, id)
    ensures var h := OfStream(s.log, id);
            && h != [] && h[0].body.InventoryCreated?
            && id in s.rows
            && s.rows[id] == Row(h[0].body.name, h[0].body.quantity - Inventories.Removed(h), h[0].body.price)
  {
    hide After, Stale, Inv, History, Converging;
    ReachableConverging(ls);
    ReachableHistory(ls);
    ConsistentIs(s, BookAfter(ls));
    RowOfCreated(s, BookAfter(ls), id);
    CurrentRow(s, Stale(ls), id);
  }

  lemma CurrentRow(s: System, stale: set<Id>, id: Id)
    requires Converging(s, stale) && Created(s.log, id)
    requires id !in stale && !Announced(s.events, id) && !InDelivery(s, id)
    ensures id in s.rows && Some(s.rows[id]) == RowOf(s.log, id)
  {
    hide Created, RowOf;
  }

  lemma RowOfCreated(s: System, b: Book, id: Id)
    requires Created(s.log, id)
    requires Consistent(s, b)
    ensures var h := OfStream(s.log, id);
            && h != [] && h[0].body.InventoryCreated?
            && RowOf(s.log, id) == Some(Row(h[0].body.name, h[0].body.quantity - Inventories.Removed(h), h[0].body.price))
  {
    hide Consistent, Created, ReplayFrom, OfStream;
    QuantityOfInventory(s, b, id);
    RowOfStock(OfStream(s.log, id));
  }

  lemma {:induction false} WithoutRejectionsNoneStale(ls: seq<Label>)
    requires NoRejections(ls)
    ensures Stale(ls) == {}
  {
    if ls != [] {
      var front, l := ls[..|ls| - 1], ls[|ls| - 1];
      assert l in ls && forall x :: x in front ==> x in ls;
      WithoutRejectionsNoneStale(front);
    }
  }

  /** In a run without rejected deliveries, once nothing is pending, a row shows the opening
      quantity less the quantities of the orders that are listed, under the name and at the price of
      the creation. */
  lemma RowsAgreeWithOrders(ls: seq<Label>, s: System, id: Id)
    requires s == After(ls) && NoRejections(ls) && Quiescent(s) && Created(s.log, id)
    ensures var h := OfStream(s.log, id);
            && h != [] && h[0].body.InventoryCreated?
            && id in s.rows
            && s.rows[id]
               == Row(h[0].body.name, h[0].body.quantity - Total(s.log, (e: Event) => TakenBy(s.log, id, e)), h[0].body.price)
  {
    hide After, Created, Stale, TakenBy, ReplayFrom, Inv, History;
    WithoutRejectionsNoneStale(ls);
    ReadSideConvergence(ls, s, id);
    GoodsConservationWithoutRejections(ls, id);
    ReachableHistory(ls);
    ConsistentIs(s, BookAfter(ls));
    QuantityOfInventory(s, BookAfter(ls), id);
  }
}
