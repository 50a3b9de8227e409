/** The FIFO queue of the core package: a linked list whose nodes live in a map. */
module LinkedQueue {
  import opened Wrappers

  type Key = nat

  datatype QueueItem<T> = QueueItem(item: T, key: Key, nextKey: Option<Key>)

  /** The map holds one acyclic chain and nothing else. */
  ghost predicate IsChain<T>(items: map<Key, QueueItem<T>>, chain: seq<Key>) {
    && (forall i :: 0 <= i < |chain| ==> Linked(items, chain, i))
    && (forall i, j :: 0 <= i < j < |chain| ==> chain[i] != chain[j])
    && |items| == |chain|
  }

  ghost predicate Linked<T>(items: map<Key, QueueItem<T>>, chain: seq<Key>, i: nat)
    requires i < |chain|
  {
    && chain[i] in items
    && items[chain[i]].key == chain[i]
    && items[chain[i]].nextKey == if i + 1 < |chain| then Some(chain[i + 1]) else None
  }

  ghost function ItemsOf<T>(items: map<Key, QueueItem<T>>, chain: seq<Key>): (s: seq<T>)
    requires IsChain(items, chain)
    ensures |s| == |chain|
  {
    seq(|chain|, i requires 0 <= i < |chain| && Linked(items, chain, i) => items[chain[i]].item)
  }

  lemma HeadRemoved<T>(items: map<Key, QueueItem<T>>, chain: seq<Key>)
    requires IsChain(items, chain) && chain != []
    ensures var items' := map k | k in items && k != chain[0] :: items[k];
            IsChain(items', chain[1..]) && ItemsOf(items', chain[1..]) == ItemsOf(items, chain)[1..]
  {
    var items' := map k | k in items && k != chain[0] :: items[k];
    var rest := chain[1..];
    assert Linked(items, chain, 0);
    assert items'.Keys == items.Keys - {chain[0]};
    forall i | 0 <= i < |rest|
      ensures Linked(items', rest, i)
    {
      assert Linked(items, chain, i + 1);
    }
  }

  /** Linking a new node behind the last one. */
  function LinkLast<T>(items: map<Key, QueueItem<T>>, lastKey: Option<Key>, key: Key, item: T): map<Key, QueueItem<T>>
    requires lastKey.Some? ==> lastKey.value in items
  {
    var linked := if lastKey.Some? then items[lastKey.value := items[lastKey.value].(nextKey := Some(key))] else items;
    linked[key := QueueItem(item, key, None)]
  }

  lemma TailAdded<T>(items: map<Key, QueueItem<T>>, chain: seq<Key>, key: Key, item: T)
    requires IsChain(items, chain) && key !in items
    ensures chain != [] ==> chain[|chain| - 1] in items
    ensures var lastKey := if chain == [] then None else Some(chain[|chain| - 1]);
            var items' := LinkLast(items, lastKey, key, item);
            IsChain(items', chain + [key]) && ItemsOf(items', chain + [key]) == ItemsOf(items, chain) + [item]
  {
    var lastKey := if chain == [] then None else Some(chain[|chain| - 1]);
    var longer := chain + [key];
    if chain != [] {
      assert Linked(items, chain, |chain| - 1);
    }
    var items' := LinkLast(items, lastKey, key, item);
    assert items'.Keys == items.Keys + {key};
    forall i | 0 <= i < |longer|
      ensures Linked(items', longer, i)
    {
      if i < |chain| {
        assert Linked(items, chain, i);
      }
    }
    forall i, j | 0 <= i < j < |longer|
      ensures longer[i] != longer[j]
    {
      assert Linked(items, chain, i);
    }
    forall i | 0 <= i < |chain|
      ensures ItemsOf(items', longer)[i] == ItemsOf(items, chain)[i]
    {
      assert Linked(items, chain, i) && Linked(items', longer, i);
    }
    assert Linked(items', longer, |chain|);
  }

  /** Distinct keys, as many as there are entries: the chain covers the map. */
  lemma ChainCoversMap<T>(items: map<Key, QueueItem<T>>, chain: seq<Key>)
    requires IsChain(items, chain)
    ensures items.Keys == set i | 0 <= i < |chain| :: chain[i]
  {
    var keys := set i | 0 <= i < |chain| :: chain[i];
    DistinctCount(chain);
    forall i | 0 <= i < |chain|
      ensures chain[i] in items
    {
      assert Linked(items, chain, i);
    }
    SubsetOfSameSize(keys, items.Keys);
  }

  lemma {:induction false} DistinctCount(s: seq<Key>)
    requires forall i, j :: 0 <= i < j < |s| ==> s[i] != s[j]
    ensures |set i | 0 <= i < |s| :: s[i]| == |s|
  {
    if s != [] {
      var front, last := s[..|s| - 1], s[|s| - 1];
      DistinctCount(front);
      assert (set i | 0 <= i < |s| :: s[i]) == (set i | 0 <= i < |front| :: front[i]) + {last};
    }
  }

  lemma SubsetOfSameSize<X>(a: set<X>, b: set<X>)
    requires a <= b && |a| == |b|
    ensures a == b
  {
    assert |b - a| == 0;
  }

  class Queue<T> {
    var firstKey: Option<Key>
    var lastKey: Option<Key>
    var items: map<Key, QueueItem<T>>
    /** The next value of `randomUUID`. */
    var nextUuid: Key
    /** The keys in list order. */
    ghost var chain: seq<Key>

    /** The chain runs from the first key to the last. While the queue is empty the first key may
        be stale: `clear` leaves it behind. */
    ghost predicate Valid()
      reads this
    {
      && IsChain(items, chain)
      && (forall k :: k in items ==> k < nextUuid)
      && (firstKey.Some? ==> firstKey.value < nextUuid)
      && (chain == [] ==> lastKey == None)
      && (chain != [] ==> firstKey == Some(chain[0]) && lastKey == Some(chain[|chain| - 1]))
    }

    ghost function Contents(): (s: seq<T>)
      reads this
      requires Valid()
    {
      ItemsOf(items, chain)
    }

    constructor ()
      ensures Valid() && Contents() == []
    {
      firstKey, lastKey, items, nextUuid, chain := None, None, map[], 0, [];
    }

    method Size() returns (n: nat)
      requires Valid()
      ensures n == |Contents()|
    {
      n := |items|;
    }

    method Clear()
      requires Valid()
      modifies this
      ensures Valid() && Contents() == []
    {
      items := map[];
      lastKey := None;
      chain := [];
    }

    method Dequeue() returns (r: Option<T>)
      requires Valid()
      modifies this
      ensures Valid()
      ensures if old(Contents()) == [] then r == None && Contents() == []
              else r == Some(old(Contents())[0]) && Contents() == old(Contents())[1..]
    {
      assert chain != [] ==> Linked(items, chain, 0);
      if firstKey.None? {
        return None;
      }
      if firstKey.value !in items {
        return None;
      }
      HeadRemoved(items, chain);
      assert |chain| > 1 ==> Linked(items, chain, 1);
      var node := items[firstKey.value];
      items := map k | k in items && k != node.key :: items[k];
      firstKey := node.nextKey;
      if lastKey == Some(node.key) {
        lastKey := None;
      }
      chain := chain[1..];
      return Some(node.item);
    }

    method Enqueue(item: T)
      requires Valid()
      modifies this
      ensures Valid()
      ensures Contents() == old(Contents()) + [item]
    {
      var key := nextUuid;
      nextUuid := nextUuid + 1;
      TailAdded(items, chain, key, item);
      assert chain != [] ==> Linked(items, chain, |chain| - 1);
      if |items| == 0 {
        firstKey := Some(key);
      }
      if lastKey.Some? {
        var prevLast := items[lastKey.value].(nextKey := Some(key));
        items := items[prevLast.key := prevLast];
      }
      items := items[key := QueueItem(item, key, None)];
      lastKey := Some(key);
      chain := chain + [key];
    }
  }

  // What a client of the queue observes.

  datatype Op<T> = Enqueue(item: T) | Dequeue | Clear

  /** Contents and everything dequeued so far, after a sequence of operations on an empty queue. */
  function Run<T>(ops: seq<Op<T>>): (seq<T>, seq<T>) {
    if ops == [] then ([], [])
    else
      var (contents, taken) := Run(ops[..|ops| - 1]);
      match ops[|ops| - 1]
      case Enqueue(item) => (contents + [item], taken)
      case Dequeue => if contents == [] then (contents, taken) else (contents[1..], taken + [contents[0]])
      case Clear => ([], taken)
  }

  function Enqueued<T>(ops: seq<Op<T>>): seq<T> {
    if ops == [] then []
    else if ops[|ops| - 1].Enqueue? then Enqueued(ops[..|ops| - 1]) + [ops[|ops| - 1].item]
    else Enqueued(ops[..|ops| - 1])
  }

  /** First in, first out, nothing lost and nothing twice: what came out followed by what is still
      in is what went in, unless the queue was cleared. */
  lemma {:induction false} FirstInFirstOut<T>(ops: seq<Op<T>>)
    requires forall op :: op in ops ==> !op.Clear?
    ensures Run(ops).1 + Run(ops).0 == Enqueued(ops)
  {
    if ops != [] {
      FirstInFirstOut(ops[..|ops| - 1]);
      assert ops[|ops| - 1] in ops;
    }
  }

  /** `clear` starts over: what was in is lost, what came out stays out, and from then on the queue
      behaves like a new one. */
  lemma {:induction false} ClearStartsOver<T>(before: seq<Op<T>>, after: seq<Op<T>>)
    ensures Run(before + [Clear] + after) == (Run(after).0, Run(before).1 + Run(after).1)
  {
    var ops := before + [Clear] + after;
    if after == [] {
      assert ops[..|ops| - 1] == before && ops[|ops| - 1] == Clear;
      assert Run(before).1 + [] == Run(before).1;
    } else {
      var front, last := after[..|after| - 1], after[|after| - 1];
      ClearStartsOver(before, front);
      assert ops[..|ops| - 1] == before + [Clear] + front && ops[|ops| - 1] == last;
      var (contents, taken) := Run(front);
      assert Run(ops[..|ops| - 1]) == (contents, Run(before).1 + taken);
      if last.Dequeue? && contents != [] {
        assert Run(before).1 + (taken + [contents[0]]) == (Run(before).1 + taken) + [contents[0]];
      } else if last.Clear? || last.Enqueue? || contents == [] {
        assert Run(after).1 == taken;
      }
    }
  }

  /** The linked map itself, driven through any operations, gives what the trace says. */
  method Drive<T>(ops: seq<Op<T>>) returns (queue: Queue<T>, taken: seq<T>)
    ensures fresh(queue) && queue.Valid()
    ensures Run(ops) == (queue.Contents(), taken)
    ensures (forall op :: op in ops ==> !op.Clear?) ==> taken + queue.Contents() == Enqueued(ops)
  {
    queue := new Queue();
    taken := [];
    for i := 0 to |ops|
      invariant fresh(queue) && queue.Valid() && Run(ops[..i]) == (queue.Contents(), taken)
    {
      assert ops[..i + 1][..i] == ops[..i];
      match ops[i]
      case Enqueue(item) => queue.Enqueue(item);
      case Dequeue =>
        var item := queue.Dequeue();
        if item.Some? {
          taken := taken + [item.value];
        }
      case Clear => queue.Clear();
    }
    assert ops[..|ops|] == ops;
    if forall op :: op in ops ==> !op.Clear? {
      FirstInFirstOut(ops);
    }
  }
}
