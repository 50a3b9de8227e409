/** Waiting for responses: `AsyncMap.waitGet` and `BasePublisher.awaitResponse`.

    Each await point is a step of its own, so responses may arrive between any two of them. One
    waiter per key, as response keys are unique to a request. The temporary subscription of a waiter
    is a subscription on the distributor of the map, with a listener on its emitter. */
module AsyncMaps {
  import opened Wrappers
  import opened Events
  import Emitters

  /** Where the waiter of a key stands: its temporary subscription is active; its promise was
      resolved by a publication; `waitGet` has a value to return; `awaitResponse` returned. */
  datatype Waiter<V> = Absent | Subscribed(sub: Emitters.Key) | Resolved(value: V) | Ready(value: V) | Done(value: V) | TimedOut

  /** The map, its waiters, and its distributor: the listeners on the emitter, the subscriptions,
      the next key. Every waiter subscribes a handler of its own, named like its key. */
  datatype State<V> = State(
    entries: map<Id, V>, waiters: map<Id, Waiter<V>>,
    on: seq<Emitters.Handler>, subs: map<Emitters.Key, Emitters.Handler>, next: Emitters.Key)
  {
    function Of(key: Id): Waiter<V> {
      if key in waiters then waiters[key] else Absent
    }
  }

  function Unsubscribe<V>(s: State<V>, sub: Emitters.Key): State<V> {
    if sub !in s.subs then s
    else s.(on := Emitters.RemoveLast(s.on, s.subs[sub]), subs := s.subs - {sub})
  }

  /** The handlers that a publication calls, one after the other: the one that waits for the key
      unsubscribes and resolves. */
  function Notify<V>(s: State<V>, called: seq<Emitters.Handler>, key: Id, value: V): State<V> {
    if called == [] then s
    else
      var t := Notify(s, called[..|called| - 1], key, value);
      var h := called[|called| - 1];
      if t.Of(key) == Subscribed(h) then Unsubscribe(t, h).(waiters := t.waiters[key := Resolved(value)]) else t
  }

  /** `set`: store, then publish. */
  function Store<V>(s: State<V>, key: Id, value: V): State<V> {
    Notify(s.(entries := s.entries[key := value]), s.on, key, value)
  }

  /** Up to the first await of `waitGet`. */
  function StartWaiting<V>(s: State<V>, key: Id): State<V> {
    if key in s.entries then s.(waiters := s.waiters[key := Ready(s.entries[key])])
    else
      s.(waiters := s.waiters[key := Subscribed(s.next)],
         on := s.on + [s.next], subs := s.subs[s.next := s.next], next := s.next + 1)
  }

  /** After the promise: `waitGet` stores the value again. */
  function Resume<V>(s: State<V>, key: Id): State<V>
    requires s.Of(key).Resolved?
  {
    var value := s.Of(key).value;
    Store(s.(waiters := s.waiters[key := Ready(value)]), key, value)
  }

  /** After `waitGet`: `awaitResponse` deletes the key and returns. */
  function Return<V>(s: State<V>, key: Id): State<V>
    requires s.Of(key).Ready?
  {
    s.(entries := s.entries - {key}, waiters := s.waiters[key := Done(s.Of(key).value)])
  }

  /** The timeout fires: unsubscribe, then reject. */
  function GiveUp<V>(s: State<V>, key: Id): State<V>
    requires s.Of(key).Subscribed?
  {
    Unsubscribe(s, s.Of(key).sub).(waiters := s.waiters[key := TimedOut])
  }

  datatype Act<V> = Arrive(key: Id, value: V) | Await(key: Id) | Continue(key: Id) | Finish(key: Id) | Expire(key: Id)

  /** A step that is not due does not happen: the state stays. */
  function Perform<V>(s: State<V>, a: Act<V>): State<V> {
    match a
    case Arrive(key, value) => Store(s, key, value)
    case Await(key) => if s.Of(key).Absent? then StartWaiting(s, key) else s
    case Continue(key) => if s.Of(key).Resolved? then Resume(s, key) else s
    case Finish(key) => if s.Of(key).Ready? then Return(s, key) else s
    case Expire(key) => if s.Of(key).Subscribed? then GiveUp(s, key) else s
  }

  function Initial<V>(): State<V> {
    State(map[], map[], [], map[], 0)
  }

  function Run<V>(acts: seq<Act<V>>): State<V> {
    if acts == [] then Initial() else Perform(Run(acts[..|acts| - 1]), acts[|acts| - 1])
  }

  // ---- Listeners and waiters ----

  /** The subscriptions of the waiters that are still subscribed. */
  function Active<V>(s: State<V>): set<Emitters.Key> {
    set k | k in s.waiters && s.waiters[k].Subscribed? :: s.waiters[k].sub
  }

  /** The listeners on the emitter are the handlers of the waiters still subscribed, each once, and
      so are the live subscriptions. */
  ghost predicate Listening<V>(s: State<V>) {
    && (forall h :: multiset(s.on)[h] == if h in Active(s) then 1 else 0)
    && s.subs.Keys == Active(s) && (forall h :: h in s.subs ==> s.subs[h] == h && h < s.next)
    && (forall k, l :: k in s.waiters && l in s.waiters && k != l && s.waiters[k].Subscribed? ==> s.waiters[l] != s.waiters[k])
  }

  lemma ActiveAfter<V>(s: State<V>, key: Id, w: Waiter<V>)
    requires Listening(s)
    ensures var left := if s.Of(key).Subscribed? then Active(s) - {s.Of(key).sub} else Active(s);
            Active(s.(waiters := s.waiters[key := w])) == if w.Subscribed? then left + {w.sub} else left
  {
    var t := s.(waiters := s.waiters[key := w]);
    var left := if s.Of(key).Subscribed? then Active(s) - {s.Of(key).sub} else Active(s);
    forall h | h in left
      ensures h in Active(t)
    {
      var k :| k in s.waiters && s.waiters[k].Subscribed? && s.waiters[k].sub == h;
      assert k != key && t.waiters[k] == s.waiters[k];
    }
    forall h | h in Active(t) && !(w.Subscribed? && h == w.sub)
      ensures h in left
    {
      var k :| k in t.waiters && t.waiters[k].Subscribed? && t.waiters[k].sub == h;
      assert k != key && s.waiters[k] == t.waiters[k];
    }
    if w.Subscribed? {
      assert t.waiters[key] == w;
    }
  }

  /** Giving a subscription up takes its listener off the emitter. */
  lemma UnsubscribeKeepsListening<V>(s: State<V>, key: Id, w: Waiter<V>)
    requires Listening(s) && s.Of(key).Subscribed? && !w.Subscribed?
    ensures Listening(Unsubscribe(s, s.Of(key).sub).(waiters := s.waiters[key := w]))
  {
    var sub := s.Of(key).sub;
    assert sub in Active(s);
    ActiveAfter(s, key, w);
    Emitters.RemoveLastTakesOne(s.on, sub);
  }

  /** Who is not subscribed comes and goes without the distributor noticing. */
  lemma WaiterMoves<V>(s: State<V>, key: Id, w: Waiter<V>)
    requires Listening(s) && !s.Of(key).Subscribed? && !w.Subscribed?
    ensures Listening(s.(waiters := s.waiters[key := w]))
  {
    ActiveAfter(s, key, w);
  }

  lemma SubscribeKeepsListening<V>(s: State<V>, key: Id)
    requires Listening(s) && s.Of(key).Absent? && key !in s.entries
    ensures Listening(StartWaiting(s, key))
  {
    ActiveAfter(s, key, Subscribed(s.next));
    assert s.next !in s.subs;
  }

  lemma NothingNotified<V>(s: State<V>, key: Id, value: V)
    ensures Notify(s, [], key, value) == s
  {
  }

  lemma NotifyStep<V>(s: State<V>, called: seq<Emitters.Handler>, i: nat, key: Id, value: V)
    requires i < |called|
    ensures var t, h := Notify(s, called[..i], key, value), called[i];
            Notify(s, called[..i + 1], key, value)
              == if t.Of(key) == Subscribed(h) then Unsubscribe(t, h).(waiters := t.waiters[key := Resolved(value)]) else t
  {
    assert called[..i + 1][..i] == called[..i];
  }

  lemma {:induction false} NotifyOthers<V>(s: State<V>, called: seq<Emitters.Handler>, key: Id, value: V)
    requires s.Of(key).Subscribed? ==> s.Of(key).sub !in called
    ensures Notify(s, called, key, value) == s
  {
    if called != [] {
      assert called == called[..|called| - 1] + [called[|called| - 1]];
      NotifyOthers(s, called[..|called| - 1], key, value);
    }
  }

  lemma {:induction false} NotifyOne<V>(s: State<V>, called: seq<Emitters.Handler>, key: Id, value: V)
    requires s.Of(key).Subscribed? && s.Of(key).sub in called
    ensures Notify(s, called, key, value)
         == Unsubscribe(s, s.Of(key).sub).(waiters := s.waiters[key := Resolved(value)])
  {
    var front, h := called[..|called| - 1], called[|called| - 1];
    assert called == front + [h];
    if s.Of(key).sub in front {
      NotifyOne(s, front, key, value);
    } else {
      NotifyOthers(s, front, key, value);
    }
  }

  /** What `set` comes to: the waiter of the key, if it is subscribed, is resolved and unsubscribed. */
  lemma StoreEffect<V>(s: State<V>, key: Id, value: V)
    requires Listening(s)
    ensures var t := s.(entries := s.entries[key := value]);
            Store(s, key, value) ==
              if s.Of(key).Subscribed? then Unsubscribe(t, s.Of(key).sub).(waiters := s.waiters[key := Resolved(value)]) else t
    ensures Listening(Store(s, key, value))
  {
    var t := s.(entries := s.entries[key := value]);
    if s.Of(key).Subscribed? {
      assert s.Of(key).sub in Active(s);
      assert multiset(s.on)[s.Of(key).sub] == 1;
      NotifyOne(t, s.on, key, value);
      UnsubscribeKeepsListening(s, key, Resolved(value));
    } else {
      NotifyOthers(t, s.on, key, value);
    }
  }

  lemma PerformKeepsListening<V>(s: State<V>, a: Act<V>)
    requires Listening(s)
    ensures Listening(Perform(s, a))
  {
    hide Listening, Store;
    match a
    case Arrive(key, value) => StoreEffect(s, key, value);
    case Await(key) =>
      if s.Of(key).Absent? {
        if key in s.entries {
          WaiterMoves(s, key, Ready(s.entries[key]));
        } else {
          SubscribeKeepsListening(s, key);
        }
      }
    case Continue(key) =>
      if s.Of(key).Resolved? {
        WaiterMoves(s, key, Ready(s.Of(key).value));
        StoreEffect(s.(waiters := s.waiters[key := Ready(s.Of(key).value)]), key, s.Of(key).value);
      }
    case Finish(key) =>
      if s.Of(key).Ready? {
        WaiterMoves(s, key, Done(s.Of(key).value));
        EntriesDoNotListen(s.(waiters := s.waiters[key := Done(s.Of(key).value)]), s.entries - {key});
      }
    case Expire(key) =>
      if s.Of(key).Subscribed? {
        UnsubscribeKeepsListening(s, key, TimedOut);
      }
  }

  lemma EntriesDoNotListen<V>(s: State<V>, entries: map<Id, V>)
    requires Listening(s)
    ensures Listening(s.(entries := entries))
  {
    assert Active(s.(entries := entries)) == Active(s);
  }

  lemma {:induction false} RunsKeepListening<V>(acts: seq<Act<V>>)
    ensures Listening(Run(acts))
  {
    if acts != [] {
      hide Listening;
      RunsKeepListening(acts[..|acts| - 1]);
      PerformKeepsListening(Run(acts[..|acts| - 1]), acts[|acts| - 1]);
    }
  }

  // ---- Responses ----

  /** Every response that ever arrived under a key. */
  ghost predicate Arrived<V>(acts: seq<Act<V>>, key: Id, value: V) {
    Arrive(key, value) in acts
  }

  ghost predicate NothingLost<V(!new)>(s: State<V>, acts: seq<Act<V>>, key: Id) {
    && (s.Of(key).Subscribed? ==> key !in s.entries && forall v :: !Arrived(acts, key, v))
    && (s.Of(key).Resolved? || s.Of(key).Ready? || s.Of(key).Done? ==> Arrived(acts, key, s.Of(key).value))
    && (key in s.entries ==> Arrived(acts, key, s.entries[key]))
    && (key !in s.entries && !s.Of(key).Done? ==> forall v :: !Arrived(acts, key, v))
  }

  /** In every run, for every key: a waiter still subscribed has missed nothing, since no response
      for its key has arrived at all; what a waiter holds or returned did arrive under its key;
      and what the map stores did too. */
  lemma {:induction false} NoLostResponse<V(!new)>(acts: seq<Act<V>>, key: Id)
    ensures NothingLost(Run(acts), acts, key)
  {
    if acts != [] {
      hide NothingLost, Listening;
      var front, last := acts[..|acts| - 1], acts[|acts| - 1];
      NoLostResponse(front, key);
      RunsKeepListening(front);
      assert acts == front + [last];
      StepLosesNothing(Run(front), front, last, key);
    }
  }

  /** What a step makes of the entries and the waiters. */
  lemma PerformEffect<V>(s: State<V>, a: Act<V>, key: Id)
    requires Listening(s)
    ensures var t := Perform(s, a);
            match a
            case Arrive(k, value) =>
              && t.entries == s.entries[k := value]
              && t.Of(key) == if key == k && s.Of(k).Subscribed? then Resolved(value) else s.Of(key)
            case Await(k) =>
              && t.entries == s.entries
              && (key != k || !s.Of(k).Absent? ==> t.Of(key) == s.Of(key))
              && (key == k && s.Of(k).Absent? ==> if k in s.entries then t.Of(k) == Ready(s.entries[k]) else t.Of(k).Subscribed?)
            case Continue(k) =>
              if s.Of(k).Resolved? then
                && t.entries == s.entries[k := s.Of(k).value]
                && t.Of(key) == if key == k then Ready(s.Of(k).value) else s.Of(key)
              else t == s
            case Finish(k) =>
              if s.Of(k).Ready? then
                && t.entries == s.entries - {k}
                && t.Of(key) == if key == k then Done(s.Of(k).value) else s.Of(key)
              else t == s
            case Expire(k) =>
              t.entries == s.entries && t.Of(key) == if key == k && s.Of(k).Subscribed? then TimedOut else s.Of(key)
  {
    hide Listening, Store, Active;
    match a
    case Arrive(k, value) => StoreEffect(s, k, value);
    case Continue(k) =>
      if s.Of(k).Resolved? {
        WaiterMoves(s, k, Ready(s.Of(k).value));
        StoreEffect(s.(waiters := s.waiters[k := Ready(s.Of(k).value)]), k, s.Of(k).value);
      }
    case _ =>
  }

  lemma StepLosesNothing<V(!new)>(s: State<V>, acts: seq<Act<V>>, a: Act<V>, key: Id)
    requires NothingLost(s, acts, key) && Listening(s)
    ensures NothingLost(Perform(s, a), acts + [a], key)
  {
    forall v
      ensures Arrived(acts + [a], key, v) <==> Arrived(acts, key, v) || a == Arrive(key, v)
    {
    }
    PerformEffect(s, a, key);
    hide Arrived, Perform, Listening;
  }

  /** However arrivals and the wait are ordered, once both have happened and the wait has not timed
      out, the waiter's own two remaining steps return a response that arrived under the key, with
      the key out of the map; and no listener is left on the emitter but those of other waiters that
      still wait. */
  lemma AwaitResponseReturns<V(!new)>(acts: seq<Act<V>>, key: Id, value: V)
    requires Await(key) in acts && Arrived(acts, key, value)
    requires !Run(acts).Of(key).TimedOut? && !Run(acts).Of(key).Done?
    ensures var s := Perform(Perform(Run(acts), Continue(key)), Finish(key));
            && s.Of(key).Done? && Arrived(acts, key, s.Of(key).value) && key !in s.entries
            && Listening(s)
            && forall h :: h in s.on ==> exists k :: k != key && s.Of(k) == Subscribed(h)
  {
    hide Run, Listening, Store;
    NoLostResponse(acts, key);
    AwaitedIsNotAbsent(acts, key);
    RunsKeepListening(acts);
    var s1 := Perform(Run(acts), Continue(key));
    PerformKeepsListening(Run(acts), Continue(key));
    PerformEffect(Run(acts), Continue(key), key);
    PerformKeepsListening(s1, Finish(key));
    PerformEffect(s1, Finish(key), key);
    ListenersWait(Perform(s1, Finish(key)), key);
  }

  lemma ListenersWait<V>(s: State<V>, key: Id)
    requires Listening(s) && !s.Of(key).Subscribed?
    ensures forall h :: h in s.on ==> exists k :: k != key && s.Of(k) == Subscribed(h)
  {
    forall h | h in s.on
      ensures exists k :: k != key && s.Of(k) == Subscribed(h)
    {
      assert multiset(s.on)[h] > 0;
      var k :| k in s.waiters && s.waiters[k].Subscribed? && s.waiters[k].sub == h;
      assert s.Of(k) == Subscribed(h);
    }
  }

  lemma {:induction false} AwaitedIsNotAbsent<V>(acts: seq<Act<V>>, key: Id)
    requires Await(key) in acts
    ensures !Run(acts).Of(key).Absent?
  {
    hide Listening, Perform;
    var front, last := acts[..|acts| - 1], acts[|acts| - 1];
    RunsKeepListening(front);
    PerformEffect(Run(front), last, key);
    if last != Await(key) {
      assert acts == front + [last];
      AwaitedIsNotAbsent(front, key);
    }
  }

  class AsyncMap<V> {
    const distributor: Emitters.Distributor
    var entries: map<Id, V>
    var waiters: map<Id, Waiter<V>>

    function View(): State<V>
      reads this, distributor, distributor.ee
    {
      State(entries, waiters, Emitters.On(distributor.ee.listeners, Emitters.Channel(distributor.uuid)),
            distributor.subscriptions, distributor.nextKey)
    }

    ghost predicate Valid()
      reads this, distributor, distributor.ee
    {
      distributor.Valid() && Listening(View())
    }

    function PhaseOf(key: Id): Waiter<V>
      reads this
    {
      if key in waiters then waiters[key] else Absent
    }

    constructor (distributor: Emitters.Distributor)
      requires distributor.Valid() && distributor.subscriptions == map[] && distributor.nextKey == 0
      requires Emitters.On(distributor.ee.listeners, Emitters.Channel(distributor.uuid)) == []
      ensures Valid() && View() == Initial() && this.distributor == distributor
    {
      this.distributor, entries, waiters := distributor, map[], map[];
      new;
      assert Active(View()) == {};
    }

    method Delete(key: Id)
      modifies this`entries
      ensures entries == old(entries) - {key}
    {
      entries := entries - {key};
    }

    /** `set`: the publication calls every listener, and each compares the key. */
    method Set(key: Id, value: V)
      requires Valid()
      modifies this, distributor, distributor.ee
      ensures Valid() && View() == Store(old(View()), key, value)
    {
      hide Listening, Notify, Emitters.Distributor.Valid, Emitters.RemoveLast;
      StoreEffect(View(), key, value);
      NothingNotified(View().(entries := entries[key := value]), key, value);
      entries := entries[key := value];
      var called := distributor.Publish();
      for i := 0 to |called|
        invariant distributor.Valid() && View() == Notify(old(View()).(entries := entries), called[..i], key, value)
        invariant entries == old(entries)[key := value]
      {
        NotifyStep(old(View()).(entries := entries), called, i, key, value);
        if PhaseOf(key) == Subscribed(called[i]) {
          distributor.Unsubscribe(called[i]);
          waiters := waiters[key := Resolved(value)];
        }
      }
      assert called[..|called|] == called;
    }

    method StartWaitGet(key: Id)
      requires Valid() && PhaseOf(key).Absent?
      modifies this`waiters, distributor, distributor.ee
      ensures Valid() && View() == Perform(old(View()), Await(key))
    {
      hide Listening, Emitters.Distributor.Valid;
      PerformKeepsListening(View(), Await(key));
      if key in entries {
        waiters := waiters[key := Ready(entries[key])];
      } else {
        var sub := distributor.Subscribe(distributor.nextKey);
        waiters := waiters[key := Subscribed(sub)];
      }
    }

    method ResumeWaitGet(key: Id)
      requires Valid() && PhaseOf(key).Resolved?
      modifies this, distributor, distributor.ee
      ensures Valid() && View() == Perform(old(View()), Continue(key))
    {
      var value := PhaseOf(key).value;
      WaiterMoves(View(), key, Ready(value));
      waiters := waiters[key := Ready(value)];
      Set(key, value);
    }

    method Timeout(key: Id)
      requires Valid()
      modifies this`waiters, distributor, distributor.ee
      ensures Valid() && View() == Perform(old(View()), Expire(key))
    {
      PerformKeepsListening(View(), Expire(key));
      hide Listening, Emitters.Distributor.Valid, Emitters.RemoveLast;
      if PhaseOf(key).Subscribed? {
        distributor.Unsubscribe(PhaseOf(key).sub);
        waiters := waiters[key := TimedOut];
        assert View() == Perform(old(View()), Expire(key));
      }
    }

    /** The end of `awaitResponse`. */
    method FinishAwaitResponse(key: Id) returns (response: V)
      requires Valid() && PhaseOf(key).Ready?
      modifies this
      ensures Valid() && View() == Perform(old(View()), Finish(key))
      ensures response == old(PhaseOf(key)).value
    {
      hide Listening, Emitters.Distributor.Valid;
      PerformKeepsListening(View(), Finish(key));
      response := PhaseOf(key).value;
      Delete(key);
      waiters := waiters[key := Done(response)];
    }
  }
}
