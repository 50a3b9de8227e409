/** The in-memory event store and the factory that loads aggregates from it and commits them. */
module EventStore {
  import opened Wrappers
  import opened Events
  import opened Aggregates
  import Delivery

  type Streams = map<Id, seq<Event>>

  function Load(streams: Streams, id: Id): seq<Event> {
    if id in streams then streams[id] else []
  }

  /** `appendToStream`: each event goes to the stream it names. */
  function AppendAll(streams: Streams, es: seq<Event>): Streams {
    if es == [] then streams
    else
      var before, last := AppendAll(streams, es[..|es| - 1]), es[|es| - 1];
      before[last.stream := Load(before, last.stream) + [last]]
  }

  lemma {:induction false} LoadAfterAppend(streams: Streams, es: seq<Event>, id: Id)
    ensures Load(AppendAll(streams, es), id) == Load(streams, id) + OfStream(es, id)
  {
    if es == [] {
      assert Load(streams, id) + [] == Load(streams, id);
    } else {
      var front, last := es[..|es| - 1], es[|es| - 1];
      LoadAfterAppend(streams, front, id);
      assert es == front + [last];
      PushEvent(front, last, id);
      assert Load(streams, id) + (OfStream(front, id) + [last]) == (Load(streams, id) + OfStream(front, id)) + [last];
    }
  }

  ghost predicate Filed(streams: Streams) {
    forall id, e :: id in streams && e in streams[id] ==> e.stream == id
  }

  lemma FiledEverywhere(streams: Streams, e: Event)
    requires Filed(streams)
    ensures Filed(streams[e.stream := Load(streams, e.stream) + [e]])
  {
  }

  lemma AppendStep(streams: Streams, es: seq<Event>, i: nat)
    requires i < |es|
    ensures var before := AppendAll(streams, es[..i]);
            AppendAll(streams, es[..i + 1]) == before[es[i].stream := Load(before, es[i].stream) + [es[i]]]
  {
    assert es[..i + 1][..i] == es[..i];
  }

  lemma PublishStep(p: Delivery.Publisher<Event>, es: seq<Event>, i: nat)
    requires i < |es|
    ensures Delivery.PublishAll(p, es[..i + 1]) == Delivery.Publish(Delivery.PublishAll(p, es[..i]), es[i])
  {
    assert es[..i + 1][..i] == es[..i];
  }

  class MemoryStore {
    var streams: Streams
    const publisher: Delivery.MemoryPublisher<Event>

    ghost predicate Valid()
      reads this, publisher, publisher.queue
    {
      publisher.Valid() && Filed(streams)
    }

    constructor (publisher: Delivery.MemoryPublisher<Event>)
      requires publisher.Valid()
      ensures Valid() && this.publisher == publisher && streams == map[]
    {
      this.publisher, streams := publisher, map[];
    }

    method ReadFromStream(id: Id) returns (events: seq<Event>)
      ensures events == Load(streams, id)
    {
      events := if id in streams then streams[id] else [];
    }

    method FileEvent(e: Event)
      requires Filed(streams)
      modifies this`streams
      ensures Filed(streams) && streams == old(streams)[e.stream := Load(old(streams), e.stream) + [e]]
    {
      FiledEverywhere(streams, e);
      if e.stream !in streams {
        streams := streams[e.stream := []];
      }
      streams := streams[e.stream := streams[e.stream] + [e]];
    }

    /** Every event is filed before it is published. */
    method AppendToStream(es: seq<Event>)
      requires Valid()
      modifies this, publisher, publisher.queue
      ensures Valid() && publisher.queue == old(publisher.queue)
      ensures streams == AppendAll(old(streams), es)
      ensures publisher.View() == Delivery.PublishAll(old(publisher.View()), es)
    {
      for i := 0 to |es|
        invariant Valid() && publisher.queue == old(publisher.queue)
        invariant streams == AppendAll(old(streams), es[..i])
        invariant publisher.View() == Delivery.PublishAll(old(publisher.View()), es[..i])
      {
        hide Filed, AppendAll, Delivery.PublishAll, Delivery.Publish;
        AppendStep(old(streams), es, i);
        PublishStep(old(publisher.View()), es, i);
        FileEvent(es[i]);
        publisher.PublishItem(es[i]);
      }
      assert es[..|es|] == es;
    }
  }

  class AggregateFactory {
    const store: MemoryStore

    constructor (store: MemoryStore)
      ensures this.store == store
    {
      this.store := store;
    }

    /** `mergeContext`: replay the stream into a new aggregate, then allow it to commit. */
    method MergeContext<S>(id: Id, table: Handlers<S>) returns (r: Result<AggregateRoot<S>, Failure>)
      requires store.Valid()
      ensures match Replay(table, Load(store.streams, id))
              case Err(f) => r == Err(f)
              case Ok(s) =>
                && r.Ok? && fresh(r.value) && r.value.Valid()
                && r.value.streamId == id && r.value.table == table && r.value.canCommit
                && r.value.state == s && r.value.history == Load(store.streams, id)
                && r.value.UncommittedHistory() == []
    {
      var events := store.ReadFromStream(id);
      var aggregate := new AggregateRoot<S>(id, table);
      for i := 0 to |events|
        invariant aggregate.Valid() && !aggregate.canCommit
        invariant aggregate.history == events[..i] && aggregate.UncommittedHistory() == []
      {
        assert events[i].stream == id by {
          assert events[i] in events;
        }
        assert events[..i + 1] == events[..i] + [events[i]];
        ReplayStep(table, table.initial, events, i);
        hide ReplayFrom;
        var applied := aggregate.Apply(events[i], true);
        if applied.Err? {
          return Err(applied.error);
        }
      }
      assert events[..|events|] == events;
      var _ := aggregate.SetCommitFunction();
      return Ok(aggregate);
    }

    /** `aggregate.commit(command)`, which hands the stamped events to `commitEvents`. */
    method Commit<S>(aggregate: AggregateRoot<S>, commandCorr: Id) returns (r: Result<(), Failure>)
      requires store.Valid() && aggregate.Valid()
      modifies aggregate`history, store, store.publisher, store.publisher.queue
      ensures store.Valid() && aggregate.Valid() && store.publisher.queue == old(store.publisher.queue)
      ensures r.Ok? <==> aggregate.canCommit
      ensures r.Err? ==> store.streams == old(store.streams) && store.publisher.View() == old(store.publisher.View())
      ensures r.Err? ==> aggregate.history == old(aggregate.history)
      ensures r.Ok? ==>
        var stamped := StampAll(old(aggregate.UncommittedHistory()), commandCorr);
        && aggregate.UncommittedHistory() == stamped
        && Restamped(old(aggregate.history), aggregate.history, stamped)
        && store.streams == AppendAll(old(store.streams), stamped)
        && store.publisher.View() == Delivery.PublishAll(old(store.publisher.View()), stamped)
    {
      hide AppendAll, Delivery.PublishAll, ReplayFrom, Uncommitted, Restamped, MemoryStore.Valid, Delivery.MemoryPublisher.View;
      var stamped := aggregate.StampUncommitted(commandCorr);
      if stamped.Err? {
        return Err(stamped.error);
      }
      store.AppendToStream(stamped.value);
      return Ok(());
    }
  }

  // ---- Loading what was committed ----

  /** What several commits make of the uncommitted events, each with the correlation of its command. */
  function StampEach(news: seq<Event>, corrs: seq<Id>): (r: seq<Event>)
    ensures |r| == |news|
  {
    if corrs == [] then news else StampAll(StampEach(news, corrs[..|corrs| - 1]), corrs[|corrs| - 1])
  }

  /** Everything the commits hand over: the index of the last committed event never moves, so each
      hands over all of it. */
  function Handed(news: seq<Event>, corrs: seq<Id>): seq<Event> {
    if corrs == [] then [] else Handed(news, corrs[..|corrs| - 1]) + StampEach(news, corrs)
  }

  function FirstSet(corrs: seq<Id>): Id {
    if corrs == [] then UNSET
    else if FirstSet(corrs[..|corrs| - 1]) != UNSET then FirstSet(corrs[..|corrs| - 1]) else corrs[|corrs| - 1]
  }

  /** An event without a correlation takes the first that any commit brings; what was stored before
      stays without. */
  lemma {:induction false} FirstCorrelationStays(news: seq<Event>, corrs: seq<Id>)
    ensures StampEach(news, corrs) == StampAll(news, FirstSet(corrs))
  {
    if corrs != [] {
      FirstCorrelationStays(news, corrs[..|corrs| - 1]);
    }
  }

  lemma {:induction false} AppendTwice(streams: Streams, es: seq<Event>, fs: seq<Event>)
    ensures AppendAll(AppendAll(streams, es), fs) == AppendAll(streams, es + fs)
    decreases |fs|
  {
    hide Load;
    if fs == [] {
      assert es + fs == es;
    } else {
      AppendTwice(streams, es, fs[..|fs| - 1]);
      assert (es + fs)[..|es + fs| - 1] == es + fs[..|fs| - 1] && (es + fs)[|es + fs| - 1] == fs[|fs| - 1];
    }
  }

  /** Commits one aggregate under one command after the other. */
  method CommitRepeatedly<S>(factory: AggregateFactory, aggregate: AggregateRoot<S>, corrs: seq<Id>)
    requires factory.store.Valid() && aggregate.Valid() && aggregate.canCommit
    modifies aggregate`history, factory.store, factory.store.publisher, factory.store.publisher.queue
    ensures factory.store.Valid() && aggregate.Valid()
    ensures factory.store.streams == AppendAll(old(factory.store.streams), Handed(old(aggregate.UncommittedHistory()), corrs))
    ensures aggregate.UncommittedHistory() == StampEach(old(aggregate.UncommittedHistory()), corrs)
    ensures Restamped(old(aggregate.history), aggregate.history, StampEach(old(aggregate.UncommittedHistory()), corrs))
  {
    hide AppendAll, ReplayFrom, Delivery.PublishAll, Uncommitted, MemoryStore.Valid, Delivery.MemoryPublisher.View;
    ghost var news := aggregate.UncommittedHistory();
    NothingAppended(factory.store.streams);
    UncommittedIsSuffix(aggregate.history, aggregate.lastCommitted);
    for i := 0 to |corrs|
      invariant factory.store.Valid() && aggregate.Valid() && factory.store.publisher.queue == old(factory.store.publisher.queue)
      invariant factory.store.streams == AppendAll(old(factory.store.streams), Handed(news, corrs[..i]))
      invariant aggregate.UncommittedHistory() == StampEach(news, corrs[..i])
      invariant Restamped(old(aggregate.history), aggregate.history, StampEach(news, corrs[..i]))
    {
      assert corrs[..i + 1][..i] == corrs[..i];
      var _ := factory.Commit(aggregate, corrs[i]);
      AppendTwice(old(factory.store.streams), Handed(news, corrs[..i]), StampEach(news, corrs[..i + 1]));
    }
    assert corrs[..|corrs|] == corrs;
  }

  lemma NothingAppended(streams: Streams)
    ensures AppendAll(streams, []) == streams
  {
  }

  lemma UncommittedIsSuffix(h: seq<Event>, lastCommitted: Option<nat>)
    requires lastCommitted.Some? ==> lastCommitted.value < |h|
    ensures |Uncommitted(h, lastCommitted)| <= |h|
    ensures h == h[..|h| - |Uncommitted(h, lastCommitted)|] + Uncommitted(h, lastCommitted)
  {
  }

  lemma {:induction false} HandedAddress(news: seq<Event>, corrs: seq<Id>, id: Id)
    requires forall e :: e in news ==> e.stream == id
    ensures forall e :: e in StampEach(news, corrs) ==> e.stream == id
    ensures forall e :: e in Handed(news, corrs) ==> e.stream == id
    ensures |corrs| > 0 ==> |Handed(news, corrs)| >= |news|
    ensures |corrs| > 1 ==> |Handed(news, corrs)| >= 2 * |news|
    ensures news == [] ==> Handed(news, corrs) == []
  {
    if corrs != [] {
      HandedAddress(news, corrs[..|corrs| - 1], id);
      StampKeepsAddress(StampEach(news, corrs[..|corrs| - 1]), corrs[|corrs| - 1], id);
    }
  }

  lemma HandedOnce(news: seq<Event>, corrs: seq<Id>)
    requires |corrs| > 1 ==> |Handed(news, corrs)| >= 2 * |news|
    requires news == [] ==> Handed(news, corrs) == []
    ensures Handed(news, corrs) == StampEach(news, corrs) <==> |corrs| == 1 || news == []
  {
    if |corrs| == 1 {
      assert Handed(news, corrs[..0]) == [];
      assert [] + StampEach(news, corrs) == StampEach(news, corrs);
    }
  }

  /** Round trip: an aggregate loaded from its stream applies `news` and is committed under a list of
      commands. Reloading gives its in-memory history, hence its state, exactly when it was committed
      once, or had nothing to commit; other streams are untouched whatever the list is. */
  lemma ReloadAfterCommits<S>(t: Handlers<S>, streams: Streams, id: Id, news: seq<Event>, corrs: seq<Id>, other: Id)
    requires forall e :: e in news ==> e.stream == id
    ensures var after := AppendAll(streams, Handed(news, corrs));
            && (Load(after, id) == Load(streams, id) + StampEach(news, corrs) <==> |corrs| == 1 || news == [])
            && (|corrs| == 1 ==> Replay(t, Load(after, id)) == Replay(t, Load(streams, id) + news))
            && (other != id ==> Load(after, other) == Load(streams, other))
  {
    hide AppendAll, Load, OfStream, ReplayFrom;
    var handed := Handed(news, corrs);
    HandedAddress(news, corrs, id);
    LoadAfterAppend(streams, handed, id);
    OfStreamAll(handed, id);
    HandedOnce(news, corrs);
    SamePrefix(Load(streams, id), handed, StampEach(news, corrs));
    if other != id {
      LoadAfterAppend(streams, handed, other);
      OfStreamNone(handed, other);
      assert Load(streams, other) + [] == Load(streams, other);
    }
    if |corrs| == 1 {
      FirstCorrelationStays(news, corrs);
      StampKeepsState(t, Load(streams, id), news, FirstSet(corrs));
    }
  }

  lemma StampKeepsAddress(news: seq<Event>, corr: Id, id: Id)
    requires forall e :: e in news ==> e.stream == id
    ensures forall e :: e in StampAll(news, corr) ==> e.stream == id
  {
    forall e | e in StampAll(news, corr)
      ensures e.stream == id
    {
      var i :| 0 <= i < |news| && StampAll(news, corr)[i] == e;
      assert news[i] in news;
    }
  }

  lemma StampKeepsState<S>(t: Handlers<S>, h: seq<Event>, news: seq<Event>, corr: Id)
    ensures Replay(t, h + StampAll(news, corr)) == Replay(t, h + news)
  {
    ReplayReadsBodies(t, t.initial, h + StampAll(news, corr), h + news);
  }

  lemma SamePrefix(h: seq<Event>, a: seq<Event>, b: seq<Event>)
    ensures h + a == h + b <==> a == b
  {
    assert (h + a)[|h|..] == a;
    assert (h + b)[|h|..] == b;
  }
}
