/** Subscriptions over one shared event emitter: `Distributor` of the core package. */
module Emitters {
  import opened Events

  /** The identity of a handler function; one handler may be subscribed several times. */
  type Handler = nat
  type Key = nat

  const DISTRIBUTION_KEY := "__dist-key__"

  /** The emitter channel of a distributor. */
  function Channel(uuid: Id): string {
    uuid + ":" + DISTRIBUTION_KEY
  }

  lemma ChannelsDiffer(a: Id, b: Id)
    ensures Channel(a) == Channel(b) ==> a == b
  {
    assert Channel(a)[..|Channel(a)| - 13] == a;
    assert Channel(b)[..|Channel(b)| - 13] == b;
  }

  type Listeners = map<string, seq<Handler>>

  function On(l: Listeners, channel: string): seq<Handler> {
    if channel in l then l[channel] else []
  }

  /** `removeListener` takes out the most recently added occurrence. */
  function RemoveLast(s: seq<Handler>, h: Handler): seq<Handler> {
    if s == [] then []
    else if s[|s| - 1] == h then s[..|s| - 1]
    else RemoveLast(s[..|s| - 1], h) + [s[|s| - 1]]
  }

  lemma {:induction false} RemoveLastTakesOne(s: seq<Handler>, h: Handler)
    ensures multiset(RemoveLast(s, h)) == multiset(s) - multiset{h}
  {
    if s != [] {
      assert s == s[..|s| - 1] + [s[|s| - 1]];
      if s[|s| - 1] != h {
        RemoveLastTakesOne(s[..|s| - 1], h);
      }
    }
  }

  function Holders(subs: map<Key, Handler>, h: Handler): set<Key> {
    set k | k in subs && subs[k] == h
  }

  /** How many live subscriptions a handler has. */
  function Live(subs: map<Key, Handler>, h: Handler): nat {
    |Holders(subs, h)|
  }

  lemma LiveNone(h: Handler)
    ensures Live(map[], h) == 0
  {
    assert Holders(map[], h) == {};
  }

  lemma LiveAdded(subs: map<Key, Handler>, key: Key, h: Handler, x: Handler)
    requires key !in subs
    ensures Live(subs[key := h], x) == if x == h then Live(subs, x) + 1 else Live(subs, x)
  {
    assert Holders(subs[key := h], x) == if x == h then Holders(subs, x) + {key} else Holders(subs, x);
  }

  lemma LiveRemoved(subs: map<Key, Handler>, key: Key, x: Handler)
    requires key in subs
    ensures Live(subs, x) == if x == subs[key] then Live(subs - {key}, x) + 1 else Live(subs - {key}, x)
  {
    assert Holders(subs, x) == if x == subs[key] then Holders(subs - {key}, x) + {key} else Holders(subs - {key}, x);
  }

  /** What `clear` leaves on the emitter: one listener for each subscription it forgot. */
  ghost predicate Forgotten(dropped: multiset<Handler>, subs: map<Key, Handler>, dropped': multiset<Handler>) {
    forall h :: dropped'[h] == dropped[h] + Live(subs, h)
  }

  /** The listeners of a distributor on the emitter are its live subscriptions and the dropped
      ones, counted with repetition. */
  ghost predicate Agrees(on: seq<Handler>, subs: map<Key, Handler>, dropped: multiset<Handler>) {
    forall h :: multiset(on)[h] == Live(subs, h) + dropped[h]
  }

  lemma SubscribeKeepsAgreement(on: seq<Handler>, subs: map<Key, Handler>, dropped: multiset<Handler>, key: Key, h: Handler)
    requires Agrees(on, subs, dropped) && key !in subs
    ensures Agrees(on + [h], subs[key := h], dropped)
  {
    forall x
      ensures multiset(on + [h])[x] == Live(subs[key := h], x) + dropped[x]
    {
      LiveAdded(subs, key, h, x);
    }
  }

  lemma UnsubscribeKeepsAgreement(on: seq<Handler>, subs: map<Key, Handler>, dropped: multiset<Handler>, key: Key)
    requires Agrees(on, subs, dropped) && key in subs
    ensures Agrees(RemoveLast(on, subs[key]), subs - {key}, dropped)
  {
    RemoveLastTakesOne(on, subs[key]);
    LiveRemoved(subs, key, subs[key]);
    forall x
      ensures multiset(RemoveLast(on, subs[key]))[x] == Live(subs - {key}, x) + dropped[x]
    {
      LiveRemoved(subs, key, x);
    }
  }

  /** The multiset of live handlers exists, so a `clear` can be described at all. */
  lemma {:induction false} LiveMultiset(subs: map<Key, Handler>) returns (m: multiset<Handler>)
    ensures forall h :: m[h] == Live(subs, h)
  {
    if subs == map[] {
      m := multiset{};
      forall h
        ensures m[h] == Live(subs, h)
      {
        LiveNone(h);
      }
    } else {
      var key :| key in subs;
      var rest := LiveMultiset(subs - {key});
      m := rest + multiset{subs[key]};
      forall h
        ensures m[h] == Live(subs, h)
      {
        LiveRemoved(subs, key, h);
      }
    }
  }

  class EventEmitter {
    var listeners: Listeners

    constructor ()
      ensures listeners == map[]
    {
      listeners := map[];
    }
  }

  class Distributor {
    const ee: EventEmitter
    const uuid: Id
    var subscriptions: map<Key, Handler>
    /** The next value of `randomUUID`. */
    var nextKey: Key
    ghost var dropped: multiset<Handler>

    ghost predicate Valid()
      reads this, ee
    {
      && (forall k :: k in subscriptions ==> k < nextKey)
      && Agrees(On(ee.listeners, Channel(uuid)), subscriptions, dropped)
    }

    constructor (ee: EventEmitter, uuid: Id)
      requires On(ee.listeners, Channel(uuid)) == []
      ensures Valid() && this.ee == ee && this.uuid == uuid
      ensures subscriptions == map[] && nextKey == 0 && dropped == multiset{}
    {
      this.ee, this.uuid, subscriptions, nextKey, dropped := ee, uuid, map[], 0, multiset{};
      new;
      forall h
        ensures Live(subscriptions, h) == 0
      {
        LiveNone(h);
      }
    }

    method Subscribe(h: Handler) returns (key: Key)
      requires Valid()
      modifies this, ee
      ensures Valid() && dropped == old(dropped)
      ensures key == old(nextKey) && nextKey == key + 1
      ensures key !in old(subscriptions) && subscriptions == old(subscriptions)[key := h]
      ensures ee.listeners ==
              old(ee.listeners)[Channel(uuid) := old(On(ee.listeners, Channel(uuid))) + [h]]
    {
      key := nextKey;
      nextKey := nextKey + 1;
      SubscribeKeepsAgreement(On(ee.listeners, Channel(uuid)), subscriptions, dropped, key, h);
      ee.listeners := ee.listeners[Channel(uuid) := On(ee.listeners, Channel(uuid)) + [h]];
      subscriptions := subscriptions[key := h];
    }

    method Unsubscribe(key: Key)
      requires Valid()
      modifies this, ee
      ensures Valid() && dropped == old(dropped)
      ensures subscriptions == old(subscriptions) - {key} && nextKey == old(nextKey)
      ensures ee.listeners ==
              if key !in old(subscriptions) then old(ee.listeners)
              else old(ee.listeners)[Channel(uuid) := RemoveLast(old(On(ee.listeners, Channel(uuid))), old(subscriptions)[key])]
    {
      if key !in subscriptions {
        assert subscriptions - {key} == subscriptions;
        return;
      }
      UnsubscribeKeepsAgreement(On(ee.listeners, Channel(uuid)), subscriptions, dropped, key);
      ee.listeners := ee.listeners[Channel(uuid) := RemoveLast(On(ee.listeners, Channel(uuid)), subscriptions[key])];
      subscriptions := subscriptions - {key};
    }

    /** `clear` forgets the subscriptions and leaves their listeners on the emitter. */
    method Clear()
      requires Valid()
      modifies this
      ensures Valid() && subscriptions == map[] && nextKey == old(nextKey)
      ensures Forgotten(old(dropped), old(subscriptions), dropped)
    {
      ghost var live := LiveMultiset(subscriptions);
      subscriptions := map[];
      dropped := dropped + live;
      forall h
        ensures Live(subscriptions, h) == 0
      {
        LiveNone(h);
      }
    }

    /** The handlers that a publication calls, in order: dropped ones included. */
    method Publish() returns (called: seq<Handler>)
      requires Valid()
      ensures called == On(ee.listeners, Channel(uuid))
      ensures forall h :: multiset(called)[h] == Live(subscriptions, h) + dropped[h]
    {
      called := On(ee.listeners, Channel(uuid));
    }
  }

  // Runs of any number of distributors over one emitter.

  datatype Op =
    | Subscribe(uuid: Id, key: Key, h: Handler)
    | Unsubscribe(uuid: Id, key: Key)
    | Clear(uuid: Id)

  datatype Part = Part(subs: map<Key, Handler>, dropped: seq<map<Key, Handler>>)

  datatype Hub = Hub(listeners: Listeners, parts: map<Id, Part>)
  {
    function Of(uuid: Id): Part {
      if uuid in parts then parts[uuid] else Part(map[], [])
    }
  }

  function Step(hub: Hub, op: Op): Hub {
    var channel, part := Channel(op.uuid), hub.Of(op.uuid);
    match op
    case Subscribe(uuid, key, h) =>
      Hub(hub.listeners[channel := On(hub.listeners, channel) + [h]],
          hub.parts[uuid := part.(subs := part.subs[key := h])])
    case Unsubscribe(uuid, key) =>
      if key !in part.subs then hub
      else Hub(hub.listeners[channel := RemoveLast(On(hub.listeners, channel), part.subs[key])],
               hub.parts[uuid := part.(subs := part.subs - {key})])
    case Clear(uuid) =>
      hub.(parts := hub.parts[uuid := Part(map[], part.dropped + [part.subs])])
  }

  function Run(ops: seq<Op>): Hub {
    if ops == [] then Hub(map[], map[]) else Step(Run(ops[..|ops| - 1]), ops[|ops| - 1])
  }

  /** Subscriptions forgotten by the clears so far. */
  function LiveSum(dropped: seq<map<Key, Handler>>, h: Handler): nat {
    if dropped == [] then 0 else LiveSum(dropped[..|dropped| - 1], h) + Live(dropped[|dropped| - 1], h)
  }

  /** `randomUUID` never gives the same key twice. */
  ghost predicate FreshKeys(ops: seq<Op>) {
    forall i, j :: 0 <= i < j < |ops| && ops[i].Subscribe? && ops[j].Subscribe? ==> ops[i].key != ops[j].key
  }

  lemma {:induction false} SubscribedKeysOccur(ops: seq<Op>, uuid: Id, key: Key)
    requires key in Run(ops).Of(uuid).subs
    ensures exists i :: 0 <= i < |ops| && ops[i].Subscribe? && ops[i].key == key
  {
    var front, last := ops[..|ops| - 1], ops[|ops| - 1];
    if !(last.Subscribe? && last.key == key) {
      SubscribedKeysOccur(front, uuid, key);
    }
  }

  ghost predicate Accounted(hub: Hub, uuid: Id, h: Handler) {
    && var part := hub.Of(uuid);
    && multiset(On(hub.listeners, Channel(uuid)))[h] == Live(part.subs, h) + LiveSum(part.dropped, h)
  }

  /** In every run, for every distributor and handler, repeated or not: its listeners are its live
      subscriptions plus exactly those dropped by `clear`. */
  lemma {:induction false} SubscriptionAgreement(ops: seq<Op>, uuid: Id, h: Handler)
    requires FreshKeys(ops)
    ensures var part := Run(ops).Of(uuid);
            multiset(On(Run(ops).listeners, Channel(uuid)))[h] == Live(part.subs, h) + LiveSum(part.dropped, h)
  {
    if ops == [] {
      LiveNone(h);
    } else {
      var front, last := ops[..|ops| - 1], ops[|ops| - 1];
      SubscriptionAgreement(front, uuid, h);
      if last.Subscribe? && last.key in Run(front).Of(last.uuid).subs {
        SubscribedKeysOccur(front, last.uuid, last.key);
      }
      StepAgreement(Run(front), last, uuid, h);
    }
  }

  lemma StepAgreement(hub: Hub, op: Op, uuid: Id, h: Handler)
    requires op.Subscribe? ==> op.key !in hub.Of(op.uuid).subs
    requires Accounted(hub, uuid, h)
    ensures Accounted(Step(hub, op), uuid, h)
  {
    ChannelsDiffer(op.uuid, uuid);
    if op.uuid == uuid {
      var part := hub.Of(uuid);
      match op
      case Subscribe(_, key, x) =>
        LiveAdded(part.subs, key, x, h);
      case Unsubscribe(_, key) =>
        if key in part.subs {
          LiveRemoved(part.subs, key, h);
          OneListenerLeft(On(hub.listeners, Channel(uuid)), part.subs[key], h);
        }
      case Clear(_) =>
        LiveNone(h);
        assert (part.dropped + [part.subs])[..|part.dropped|] == part.dropped;
    }
  }

  lemma OneListenerLeft(on: seq<Handler>, x: Handler, h: Handler)
    ensures multiset(RemoveLast(on, x))[h] == if h == x && multiset(on)[h] > 0 then multiset(on)[h] - 1 else multiset(on)[h]
  {
    RemoveLastTakesOne(on, x);
  }

  function Addressed(ops: seq<Op>, uuid: Id): seq<Op> {
    if ops == [] then []
    else if ops[|ops| - 1].uuid == uuid then Addressed(ops[..|ops| - 1], uuid) + [ops[|ops| - 1]]
    else Addressed(ops[..|ops| - 1], uuid)
  }

  /** A distributor cannot tell whether other distributors share its emitter. */
  lemma {:induction false} DistributorsAreIsolated(ops: seq<Op>, uuid: Id)
    ensures On(Run(ops).listeners, Channel(uuid)) == On(Run(Addressed(ops, uuid)).listeners, Channel(uuid))
    ensures Run(ops).Of(uuid) == Run(Addressed(ops, uuid)).Of(uuid)
  {
    if ops != [] {
      var front, last := ops[..|ops| - 1], ops[|ops| - 1];
      DistributorsAreIsolated(front, uuid);
      if last.uuid == uuid {
        var mine := Addressed(front, uuid);
        assert (mine + [last])[..|mine|] == mine;
      } else {
        ChannelsDiffer(last.uuid, uuid);
      }
    }
  }

  /** An operation on a distributor object, on the emitter it shares, is a step of the run: it moves the
      listeners of its channel and its own subscriptions as the step says. */
  method PerformOn(d: Distributor, op: Op, ghost hub: Hub)
    requires d.Valid() && op.uuid == d.uuid && hub.listeners == d.ee.listeners && hub.Of(d.uuid).subs == d.subscriptions
    requires op.Subscribe? ==> op.key == d.nextKey
    modifies d, d.ee
    ensures d.Valid()
    ensures d.ee.listeners == Step(hub, op).listeners && d.subscriptions == Step(hub, op).Of(d.uuid).subs
  {
    match op
    case Subscribe(_, _, h) => var _ := d.Subscribe(h);
    case Unsubscribe(_, key) => d.Unsubscribe(key);
    case Clear(_) => d.Clear();
  }
}
