/** Identifiers and the events of the demo domain.

    JavaScript treats an absent id and an empty one alike wherever the framework tests an id,
    so an unset id is the empty string here. */
module Events {

  type Id = string

  const UNSET: Id := ""

  /** The n-th value of `randomUUID`: never unset, colon free, different for different n. */
  function Uuid(n: nat): (id: Id)
    ensures |id| == n + 1
    ensures id != UNSET && ':' !in id && 'n' !in id
  {
    seq(n + 1, _ => 'u')
  }

  datatype Order = Order(id: Id, accountId: Id, inventoryId: Id, cost: int, quantity: int)

  /** `$name` and `$data` of an event. Money is in cents. */
  datatype Body =
    | AccountCreated(name: string, balance: int)
    | FundsDeposited(funds: int)
    | FundsWithdrawn(funds: int)
    | RollbackFundsWithdrawn(funds: int)
    | FundsWithdrawalFailed(funds: int)
    | OrderCreated(order: Order)
    | RollbackOrderCreated(orderId: Id)
    | InventoryCreated(name: string, quantity: int, price: int)
    | InventoryRemoved(quantity: int)
    | InventoryCreatedFailed(name: string)

  /** `$uuid`, `$streamId`, `$correlationId` and the body. */
  datatype Event = Event(uuid: nat, stream: Id, corr: Id, body: Body)

  /** The events of a history that satisfy a test, in order. */
  function Filter(h: seq<Event>, p: Event -> bool): seq<Event> {
    if h == [] then []
    else
      var last := h[|h| - 1];
      if p(last) then Filter(h[..|h| - 1], p) + [last] else Filter(h[..|h| - 1], p)
  }

  /** The events that carry a correlation id. */
  function OfCorrelation(h: seq<Event>, c: Id): seq<Event> {
    Filter(h, (e: Event) => e.corr == c)
  }

  /** The history with every event of a correlation deleted. */
  function Without(h: seq<Event>, c: Id): seq<Event> {
    Filter(h, (e: Event) => e.corr != c)
  }

  /** The events addressed to one stream. */
  function OfStream(h: seq<Event>, id: Id): seq<Event> {
    Filter(h, (e: Event) => e.stream == id)
  }

  lemma {:induction false} FilterMembers(h: seq<Event>, p: Event -> bool)
    ensures forall e :: e in Filter(h, p) <==> e in h && p(e)
  {
    if h != [] {
      FilterMembers(h[..|h| - 1], p);
      assert h == h[..|h| - 1] + [h[|h| - 1]];
    }
  }

  lemma OfCorrelationMembers(h: seq<Event>, c: Id)
    ensures forall e :: e in OfCorrelation(h, c) <==> e in h && e.corr == c
  {
    FilterMembers(h, (e: Event) => e.corr == c);
  }

  lemma WithoutMembers(h: seq<Event>, c: Id)
    ensures forall e :: e in Without(h, c) <==> e in h && e.corr != c
  {
    FilterMembers(h, (e: Event) => e.corr != c);
  }

  lemma OfStreamMembers(h: seq<Event>, id: Id)
    ensures forall e :: e in OfStream(h, id) <==> e in h && e.stream == id
  {
    FilterMembers(h, (e: Event) => e.stream == id);
  }

  /** Adding one event to a history, for each of the three filters. */
  lemma PushEvent(h: seq<Event>, e: Event, id: Id)
    ensures OfCorrelation(h + [e], id) == if e.corr == id then OfCorrelation(h, id) + [e] else OfCorrelation(h, id)
    ensures Without(h + [e], id) == if e.corr != id then Without(h, id) + [e] else Without(h, id)
    ensures OfStream(h + [e], id) == if e.stream == id then OfStream(h, id) + [e] else OfStream(h, id)
  {
    assert (h + [e])[..|h|] == h;
  }

  lemma {:induction false} FilterAppend(h: seq<Event>, k: seq<Event>, p: Event -> bool)
    ensures Filter(h + k, p) == Filter(h, p) + Filter(k, p)
  {
    if k == [] {
      assert h + k == h;
    } else {
      var front, last := k[..|k| - 1], k[|k| - 1];
      FilterAppend(h, front, p);
      assert (h + k)[..|h + k| - 1] == h + front && (h + k)[|h + k| - 1] == last;
    }
  }

  lemma {:induction false} FilterNone(h: seq<Event>, p: Event -> bool)
    requires forall e :: e in h ==> !p(e)
    ensures Filter(h, p) == []
  {
    if h != [] {
      FilterNone(h[..|h| - 1], p);
      assert h[|h| - 1] in h;
    }
  }

  lemma {:induction false} FilterAll(h: seq<Event>, p: Event -> bool)
    requires forall e :: e in h ==> p(e)
    ensures Filter(h, p) == h
  {
    if h != [] {
      FilterAll(h[..|h| - 1], p);
      assert h[|h| - 1] in h;
      assert h == h[..|h| - 1] + [h[|h| - 1]];
    }
  }

  /** Two filters in a row are one filter by both tests. */
  lemma {:induction false} FilterTwice(h: seq<Event>, p: Event -> bool, q: Event -> bool, r: Event -> bool)
    requires forall e :: e in h ==> (r(e) <==> p(e) && q(e))
    ensures Filter(Filter(h, p), q) == Filter(h, r)
  {
    if h != [] {
      var front, last := h[..|h| - 1], h[|h| - 1];
      assert h == front + [last];
      assert last in h;
      FilterTwice(front, p, q, r);
      if p(last) {
        assert (Filter(front, p) + [last])[..|Filter(front, p)|] == Filter(front, p);
      }
    }
  }

  lemma OfStreamAll(h: seq<Event>, id: Id)
    requires forall e :: e in h ==> e.stream == id
    ensures OfStream(h, id) == h
  {
    FilterAll(h, (e: Event) => e.stream == id);
  }

  lemma OfStreamNone(h: seq<Event>, id: Id)
    requires forall e :: e in h ==> e.stream != id
    ensures OfStream(h, id) == []
  {
    FilterNone(h, (e: Event) => e.stream == id);
  }
}
