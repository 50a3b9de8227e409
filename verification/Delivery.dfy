/** In-memory delivery: `MemoryPublisher` on top of `BasePublisher`.

    Emission is synchronous but a worker acknowledges only after its handler settled, so what a
    worker publishes while it handles an item is one more publication on an active publisher.
    Serialization is the identity. */
module Delivery {
  import opened Wrappers
  import LinkedQueue

  datatype Status = NotReady | Preparing | Idle | Active | ShuttingDown

  /** The fields of a publisher, and records of what happened to the items: every item published,
      every item handed to `_distributor.publish`, what the workers have of them and did not
      acknowledge yet, what they acknowledged. */
  datatype Publisher<T> = Publisher(
    queue: seq<T>, status: Status, workers: nat, listeners: nat,
    published: seq<T>, dispatched: seq<T>, inFlight: seq<T>, acknowledged: seq<T>)
  {
    /** `_distributor.listenerCount`. */
    function Subscriptions(): nat {
      workers + listeners
    }
  }

  function Copies<T>(n: nat, item: T): seq<T> {
    seq(n, _ => item)
  }

  /** `advanceBus`: every worker gets its own copy of the item and will acknowledge it. */
  function Advance<T>(p: Publisher<T>): Publisher<T> {
    if p.Subscriptions() == 0 || p.status != Idle || p.queue == [] then p
    else p.(queue := p.queue[1..], status := Active, dispatched := p.dispatched + [p.queue[0]],
            inFlight := p.inFlight + Copies(p.workers, p.queue[0]))
  }

  /** `publish`: only a publication that finds the queue empty tries to advance. */
  function Publish<T>(p: Publisher<T>, item: T): Publisher<T> {
    var enqueued := p.(queue := p.queue + [item], published := p.published + [item]);
    if |enqueued.queue| == 1 then Advance(enqueued) else enqueued
  }

  /** `acknowledgeEvent` for the i-th dispatched item. */
  function Acknowledge<T>(p: Publisher<T>, i: nat): Publisher<T>
    requires i < |p.inFlight|
  {
    Advance(p.(status := Idle,
               inFlight := p.inFlight[..i] + p.inFlight[i + 1..],
               acknowledged := p.acknowledged + [p.inFlight[i]]))
  }

  /** What the surroundings of a publisher do. `listen` and `unsubscribe` move the passive
      listeners; an acknowledgement of nothing does not happen. */
  datatype Act<T> = Publication(item: T) | Acknowledgement(i: nat) | Listen | Unlisten

  function Perform<T>(p: Publisher<T>, a: Act<T>): Publisher<T> {
    match a
    case Publication(item) => Publish(p, item)
    case Acknowledgement(i) => if i < |p.inFlight| then Acknowledge(p, i) else p
    case Listen => p.(listeners := p.listeners + 1)
    case Unlisten => if p.listeners > 0 then p.(listeners := p.listeners - 1) else p
  }

  function Run<T>(p: Publisher<T>, acts: seq<Act<T>>): Publisher<T> {
    if acts == [] then p else Perform(Run(p, acts[..|acts| - 1]), acts[|acts| - 1])
  }

  /** Single flight in publication order: what was published is what was acknowledged, then the
      one item in flight, then the queue; what was handed out is the first two; and an idle publisher
      has nothing left to do. */
  ghost predicate SingleFlight<T>(p: Publisher<T>) {
    && p.published == p.acknowledged + p.inFlight + p.queue
    && p.dispatched == p.acknowledged + p.inFlight
    && |p.inFlight| <= 1
    && (p.status == Idle ==> p.queue == [] && p.inFlight == [])
  }

  /** Just bootstrapped, with `workers` subscriptions and nothing handed out yet. */
  ghost predicate Bootstrapped<T>(p: Publisher<T>) {
    && p.status == Idle && p.dispatched == [] && p.inFlight == [] && p.acknowledged == [] && p.published == p.queue
  }

  ghost predicate OneWorker<T>(p: Publisher<T>) {
    && SingleFlight(p)
    && p.workers == 1
    && (p.status == Idle || p.status == Active)
    && (p.status == Active ==> |p.inFlight| == 1)
  }

  lemma StepKeepsOneWorker<T>(p: Publisher<T>, a: Act<T>)
    requires OneWorker(p)
    ensures OneWorker(Perform(p, a))
  {
    match a
    case Publication(item) =>
      if p.status == Idle {
        var q := p.(queue := p.queue + [item], published := p.published + [item]);
        assert q.queue[0] == item && q.queue[1..] == [];
        assert Copies(1, item) == [item];
      } else {
        assert p.published + [item] == p.acknowledged + p.inFlight + (p.queue + [item]);
      }
    case Acknowledgement(i) =>
      if i < |p.inFlight| {
        var q := p.(status := Idle, inFlight := p.inFlight[..i] + p.inFlight[i + 1..],
                    acknowledged := p.acknowledged + [p.inFlight[i]]);
        assert q.inFlight == [] && p.inFlight == [p.inFlight[0]];
        assert q.published == q.acknowledged + q.queue;
        if q.queue != [] {
          assert Copies(1, q.queue[0]) == [q.queue[0]];
          assert q.queue == [q.queue[0]] + q.queue[1..];
        }
      }
    case _ =>
  }

  lemma {:induction false} RunsKeepOneWorker<T>(p: Publisher<T>, acts: seq<Act<T>>)
    requires OneWorker(p)
    ensures OneWorker(Run(p, acts))
  {
    if acts != [] {
      RunsKeepOneWorker(p, acts[..|acts| - 1]);
      StepKeepsOneWorker(Run(p, acts[..|acts| - 1]), acts[|acts| - 1]);
    }
  }

  ghost predicate AlwaysSingleFlight<T(!new)>(p: Publisher<T>) {
    forall acts :: SingleFlight(Run(p, acts))
  }

  /** A bootstrapped publisher delivers single flight, in order, exactly once and without stalling
      in every run exactly when it has one worker and nothing was published before that worker
      subscribed. */
  lemma DeliveryGuarantee<T(!new)>(p: Publisher<T>, sample: T)
    requires Bootstrapped(p)
    ensures AlwaysSingleFlight(p) <==> p.workers == 1 && p.queue == []
  {
    if p.workers == 1 && p.queue == [] {
      forall acts
        ensures SingleFlight(Run(p, acts))
      {
        RunsKeepOneWorker(p, acts);
      }
    } else if p.queue != [] {
      var none: seq<Act<T>> := [];
      assert !SingleFlight(Run(p, none));
    } else {
      FirstPublicationFails(p, sample);
      var one := [Publication(sample)];
      assert !SingleFlight(Run(p, one));
    }
  }

  lemma FirstPublicationFails<T>(p: Publisher<T>, item: T)
    requires Bootstrapped(p) && p.queue == [] && p.workers != 1
    ensures !SingleFlight(Run(p, [Publication(item)]))
  {
    var one := [Publication(item)];
    assert one[..0] == [];
    assert Run(p, one[..0]) == p;
    var q := Run(p, one);
    assert q == Publish(p, item);
    if p.Subscriptions() > 0 {
      assert q.inFlight == Copies(p.workers, item);
    }
  }

  /** A worker that subscribes after a publication is never served: no later publication finds
      the queue empty, so nothing is dispatched however much is published. */
  lemma {:induction false} LateWorkerStarves<T>(p: Publisher<T>, acts: seq<Act<T>>)
    requires p.status == Idle && p.inFlight == [] && p.queue != []
    ensures var q := Run(p, acts);
            q.status == Idle && q.inFlight == [] && q.acknowledged == p.acknowledged && |q.queue| >= |p.queue|
  {
    if acts != [] {
      LateWorkerStarves(p, acts[..|acts| - 1]);
    }
  }

  /** Acknowledging as long as something is in flight. */
  function AcknowledgeAll<T>(p: Publisher<T>, n: nat): Publisher<T> {
    if n == 0 then p
    else
      var q := AcknowledgeAll(p, n - 1);
      Perform(q, Acknowledgement(0))
  }

  /** With one worker whose handler settles, everything published is handled after as many
      acknowledgements as there are items left. */
  lemma {:induction false} EverythingIsDelivered<T>(p: Publisher<T>, n: nat)
    requires OneWorker(p) && n <= |p.inFlight| + |p.queue|
    ensures var q := AcknowledgeAll(p, n);
            && OneWorker(q) && q.published == p.published
            && |q.acknowledged| == |p.acknowledged| + n
            && (n == |p.inFlight| + |p.queue| ==> q.acknowledged == p.published && q.status == Idle)
  {
    if n == 0 {
      if p.queue == [] && p.inFlight == [] {
        assert p.acknowledged + p.inFlight + p.queue == p.acknowledged;
      }
    } else {
      EverythingIsDelivered(p, n - 1);
      var q := AcknowledgeAll(p, n - 1);
      assert |q.inFlight| + |q.queue| == |p.inFlight| + |p.queue| - (n - 1);
      StepKeepsOneWorker(q, Acknowledgement(0));
      var r := AcknowledgeAll(p, n);
      if n == |p.inFlight| + |p.queue| {
        assert |r.published| == |r.acknowledged| + |r.inFlight| + |r.queue|;
        assert r.acknowledged + r.inFlight + r.queue == r.acknowledged;
      }
    }
  }

  function PublishAll<T>(p: Publisher<T>, items: seq<T>): Publisher<T> {
    if items == [] then p else Publish(PublishAll(p, items[..|items| - 1]), items[|items| - 1])
  }

  /** A publisher with one worker takes whatever is published, in order. */
  lemma {:induction false} PublishAllIsRun<T>(p: Publisher<T>, items: seq<T>)
    requires OneWorker(p)
    ensures OneWorker(PublishAll(p, items)) && PublishAll(p, items).published == p.published + items
  {
    if items != [] {
      PublishAllIsRun(p, items[..|items| - 1]);
      var q := PublishAll(p, items[..|items| - 1]);
      StepKeepsOneWorker(q, Publication(items[|items| - 1]));
      assert p.published + items == (p.published + items[..|items| - 1]) + [items[|items| - 1]];
    }
  }

  class MemoryPublisher<T> {
    var queue: LinkedQueue.Queue<T>
    var status: Status
    var workers: nat
    var listeners: nat
    /** Every item handed to `_distributor.publish`: what the subscribed handlers were called with. */
    var dispatched: seq<T>
    ghost var published: seq<T>
    ghost var inFlight: seq<T>
    ghost var acknowledged: seq<T>

    ghost predicate Valid()
      reads this, queue
    {
      queue.Valid()
    }

    ghost function View(): Publisher<T>
      reads this, queue
      requires Valid()
    {
      Publisher(queue.Contents(), status, workers, listeners, published, dispatched, inFlight, acknowledged)
    }

    constructor ()
      ensures Valid() && fresh(queue)
      ensures View() == Publisher([], NotReady, 0, 0, [], [], [], [])
    {
      queue := new LinkedQueue.Queue<T>();
      status, workers, listeners := NotReady, 0, 0;
      dispatched, published, inFlight, acknowledged := [], [], [], [];
    }

    /** `onApplicationBootstrap`: a new queue, then idle. */
    method Bootstrap()
      requires Valid()
      modifies this
      ensures Valid() && fresh(queue)
      ensures View() == old(View()).(queue := [], status := Idle)
    {
      status := Preparing;
      queue := new LinkedQueue.Queue<T>();
      status := Idle;
    }

    method SubscribeWorker()
      requires Valid()
      modifies this`workers
      ensures Valid() && View() == old(View()).(workers := old(workers) + 1)
    {
      workers := workers + 1;
    }

    method Listen()
      requires Valid()
      modifies this`listeners
      ensures Valid() && View() == Perform(old(View()), Act.Listen)
      ensures listeners == old(listeners) + 1
    {
      listeners := listeners + 1;
    }

    method Unlisten()
      requires Valid()
      modifies this`listeners
      ensures Valid() && View() == Perform(old(View()), Act.Unlisten)
      ensures listeners == if old(listeners) > 0 then old(listeners) - 1 else 0
    {
      if listeners > 0 {
        listeners := listeners - 1;
      }
    }

    /** Hands out the head of the queue, if someone listens and nobody is at work. */
    method AdvanceBus()
      requires Valid()
      modifies this, queue
      ensures Valid() && queue == old(queue)
      ensures View() == Advance(old(View()))
      ensures dispatched ==
              if old(workers + listeners) > 0 && old(status) == Idle && old(queue.Contents()) != []
              then old(dispatched) + [old(queue.Contents())[0]] else old(dispatched)
    {
      if workers + listeners == 0 || status != Idle {
        return;
      }
      var item := queue.Dequeue();
      if item.None? {
        return;
      }
      status := Active;
      dispatched := dispatched + [item.value];
      inFlight := inFlight + Copies(workers, item.value);
    }

    /** The item is handed out at once exactly when the queue was empty, someone listens and nobody
        is at work. */
    method PublishItem(item: T)
      requires Valid()
      modifies this, queue
      ensures Valid() && queue == old(queue)
      ensures View() == Publish(old(View()), item)
      ensures dispatched ==
              if old(workers + listeners) > 0 && old(status) == Idle && old(queue.Contents()) == []
              then old(dispatched) + [item] else old(dispatched)
    {
      queue.Enqueue(item);
      published := published + [item];
      var size := queue.Size();
      if size == 1 {
        AdvanceBus();
      }
    }

    /** The next item is handed out exactly when there is one and someone listens. */
    method AcknowledgeEvent(ghost i: nat)
      requires Valid() && i < |inFlight|
      modifies this, queue
      ensures Valid() && queue == old(queue)
      ensures View() == Acknowledge(old(View()), i)
      ensures dispatched ==
              if old(workers + listeners) > 0 && old(queue.Contents()) != []
              then old(dispatched) + [old(queue.Contents())[0]] else old(dispatched)
    {
      status := Idle;
      acknowledged := acknowledged + [inFlight[i]];
      inFlight := inFlight[..i] + inFlight[i + 1..];
      AdvanceBus();
    }
  }

  // ---- A publisher object with one worker ----

  function Items<T>(acts: seq<Act<T>>): seq<T> {
    if acts == [] then []
    else if acts[|acts| - 1].Publication? then Items(acts[..|acts| - 1]) + [acts[|acts| - 1].item]
    else Items(acts[..|acts| - 1])
  }

  function Working<T>(w: Option<T>): seq<T> {
    if w.Some? then [w.value] else []
  }

  function Started<T>(): Publisher<T> {
    Publisher([], Idle, 1, 0, [], [], [], [])
  }

  lemma {:induction false} PublishedItems<T>(p: Publisher<T>, acts: seq<Act<T>>)
    ensures Run(p, acts).published == p.published + Items(acts)
  {
    if acts == [] {
      assert p.published + [] == p.published;
    } else {
      PublishedItems(p, acts[..|acts| - 1]);
      var items := Items(acts[..|acts| - 1]);
      if acts[|acts| - 1].Publication? {
        assert (p.published + items) + [acts[|acts| - 1].item] == p.published + (items + [acts[|acts| - 1].item]);
      }
    }
  }

  lemma RunStep<T>(p: Publisher<T>, acts: seq<Act<T>>, i: nat)
    requires i < |acts|
    ensures Run(p, acts[..i + 1]) == Perform(Run(p, acts[..i]), acts[i])
  {
    assert acts[..i + 1][..i] == acts[..i];
  }

  /** What a step means to the one worker: it is done with its item if it acknowledged it, and it has
      a new one exactly when one was handed out. */
  lemma WorkerSees<T>(p: Publisher<T>, a: Act<T>)
    requires OneWorker(p)
    ensures var q := Perform(p, a);
            && OneWorker(q) && |p.dispatched| <= |q.dispatched| <= |p.dispatched| + 1
            && var done := a == Acknowledgement(0);
               && q.acknowledged == (if done then p.acknowledged + p.inFlight else p.acknowledged)
               && q.inFlight == (if |q.dispatched| > |p.dispatched| then [q.dispatched[|p.dispatched|]]
                                 else if done then [] else p.inFlight)
  {
    StepKeepsOneWorker(p, a);
    match a
    case Publication(item) => assert Copies(1, item) == [item];
    case Acknowledgement(i) =>
      if i < |p.inFlight| {
        assert p.inFlight == [p.inFlight[0]];
        assert p.inFlight[..0] + p.inFlight[1..] == [];
        if p.queue != [] {
          assert Copies(1, p.queue[0]) == [p.queue[0]];
        }
      } else if i == 0 {
        assert p.acknowledged + [] == p.acknowledged;
      }
    case _ =>
  }

  /** A worker that sees nothing but the items handed to its handler, and acknowledges each when the
      handler has settled. */
  method PerformWith<T>(publisher: MemoryPublisher<T>, a: Act<T>, handled: seq<T>, working: Option<T>)
    returns (handled': seq<T>, working': Option<T>)
    requires publisher.Valid() && OneWorker(publisher.View())
    requires publisher.acknowledged == handled && publisher.inFlight == Working(working)
    modifies publisher, publisher.queue
    ensures publisher.Valid() && publisher.queue == old(publisher.queue)
    ensures publisher.View() == Perform(old(publisher.View()), a) && OneWorker(publisher.View())
    ensures publisher.acknowledged == handled' && publisher.inFlight == Working(working')
  {
    WorkerSees(publisher.View(), a);
    hide OneWorker;
    handled', working' := handled, working;
    var before := |publisher.dispatched|;
    match a {
      case Publication(item) => publisher.PublishItem(item);
      case Acknowledgement(k) =>
        if working.Some? && k == 0 {
          handled', working' := handled + [working.value], None;
          publisher.AcknowledgeEvent(0);
        }
      case Listen => publisher.Listen();
      case Unlisten => publisher.Unlisten();
    }
    assert publisher.View() == Perform(old(publisher.View()), a);
    if |publisher.dispatched| > before {
      working' := Some(publisher.dispatched[before]);
    }
  }

  /** Whatever is published or listened to while it works, one worker is handed every published item,
      once and in order: what it handled, then the one it works on, are what was handed out, and
      what is left waits in the queue. It rests only when nothing does. */
  method Drive<T>(acts: seq<Act<T>>) returns (publisher: MemoryPublisher<T>, handled: seq<T>, working: Option<T>)
    ensures fresh(publisher) && publisher.Valid() && publisher.View() == Run(Started(), acts)
    ensures publisher.dispatched == handled + Working(working)
    ensures Items(acts) == handled + Working(working) + publisher.queue.Contents()
    ensures working.None? ==> publisher.queue.Contents() == []
  {
    publisher := new MemoryPublisher<T>();
    publisher.Bootstrap();
    publisher.SubscribeWorker();
    handled, working := [], None;
    for i := 0 to |acts|
      invariant fresh(publisher) && fresh(publisher.queue) && publisher.Valid()
      invariant publisher.View() == Run(Started(), acts[..i]) && OneWorker(publisher.View())
      invariant publisher.acknowledged == handled && publisher.inFlight == Working(working)
    {
      hide OneWorker, Run, Perform;
      RunStep(Started(), acts, i);
      handled, working := PerformWith(publisher, acts[i], handled, working);
    }
    assert acts[..|acts|] == acts;
    PublishedItems(Started(), acts);
  }
}
