/** Event-sourced aggregates: `AggregateRoot` of the core package.

    The `@Apply` and `@Rollback` decorators become a dispatch table. The properties proved here
    hold for every table, that is for every aggregate whose rollback methods read nothing but the
    event; `Accounts` and `Inventories` supply the two of the demo. */
module Aggregates {
  import opened Wrappers
  import opened Events

  datatype Failure = AggregateDeleted | UnhandledEvent | HandlerThrew | UnavailableCommit | MultipleSet

  /** What the decorators of an aggregate class record. `apply` fails with `UnhandledEvent` where
      no method is registered and with `HandlerThrew` where the method throws; `undo` is `None`
      where no rollback method is registered. `shared` is what becomes of an aggregate while a
      copy that inherits its fields replays events: its arrays are the copy's too. */
  datatype Handlers<!S> = Handlers(
    initial: S,
    apply: (S, Body) -> Result<S, Failure>,
    undo: Body -> Option<Body>,
    deleted: S -> bool,
    shared: (S, seq<Event>) -> S)

  /** Applying stored events: no check of `deleted`. */
  function ReplayFrom<S>(t: Handlers<S>, s: S, h: seq<Event>): Result<S, Failure> {
    if h == [] then Ok(s)
    else
      match ReplayFrom(t, s, h[..|h| - 1])
      case Ok(prior) => t.apply(prior, h[|h| - 1].body)
      case Err(f) => Err(f)
  }

  function Replay<S>(t: Handlers<S>, h: seq<Event>): Result<S, Failure> {
    ReplayFrom(t, t.initial, h)
  }

  /** Applying one new event. */
  function ApplyNew<S>(t: Handlers<S>, s: S, b: Body): Result<S, Failure> {
    if t.deleted(s) then Err(AggregateDeleted) else t.apply(s, b)
  }

  function ApplyNewAll<S>(t: Handlers<S>, s: S, es: seq<Event>): Result<S, Failure> {
    if es == [] then Ok(s)
    else
      match ApplyNewAll(t, s, es[..|es| - 1])
      case Ok(prior) => ApplyNew(t, prior, es[|es| - 1].body)
      case Err(f) => Err(f)
  }

  /** `uncommittedEventHistory`. An index never set is `undefined`, and `undefined + 1` is NaN:
      the comparison fails and `slice(NaN)` is the whole history. */
  function Uncommitted(h: seq<Event>, lastCommitted: Option<nat>): seq<Event> {
    match lastCommitted
    case None => h
    case Some(k) => if k + 1 >= |h| then [] else h[k + 1..]
  }

  lemma UncommittedAppend(h: seq<Event>, lastCommitted: Option<nat>, es: seq<Event>)
    requires lastCommitted.Some? ==> lastCommitted.value < |h|
    ensures Uncommitted(h + es, lastCommitted) == Uncommitted(h, lastCommitted) + es
  {
    if lastCommitted.Some? {
      assert (h + es)[lastCommitted.value + 1..] == h[lastCommitted.value + 1..] + es;
    }
  }

  function Stamp(e: Event, c: Id): Event {
    if e.corr == UNSET then e.(corr := c) else e
  }

  /** What `commit(command)` does to the uncommitted events before it stores them. */
  function StampAll(es: seq<Event>, c: Id): (r: seq<Event>)
    ensures |r| == |es|
    ensures forall i :: 0 <= i < |es| ==> r[i] == Stamp(es[i], c)
  {
    seq(|es|, i requires 0 <= i < |es| => Stamp(es[i], c))
  }

  function Reversed<T>(s: seq<T>): (r: seq<T>)
    ensures |r| == |s|
    ensures forall i :: 0 <= i < |s| ==> r[i] == s[|s| - 1 - i]
  {
    seq(|s|, i requires 0 <= i < |s| => s[|s| - 1 - i])
  }

  /** The compensating events for a list of events, or `None` if one of them has no rollback method. */
  function Compensate<S>(t: Handlers<S>, stream: Id, es: seq<Event>, c: Id, uuid: nat): Option<seq<Event>> {
    if es == [] then Some([])
    else
      var last := es[|es| - 1];
      match (Compensate(t, stream, es[..|es| - 1], c, uuid), t.undo(last.body))
      case (Some(front), Some(b)) => Some(front + [Event(uuid + |es| - 1, stream, c, b)])
      case _ => None
  }

  lemma {:induction false} CompensateShape<S>(t: Handlers<S>, stream: Id, es: seq<Event>, c: Id, uuid: nat)
    ensures var r := Compensate(t, stream, es, c, uuid);
            && (r.None? <==> exists i :: 0 <= i < |es| && t.undo(es[i].body).None?)
            && (r.Some? ==> |r.value| == |es|)
            && (r.Some? ==> forall i :: 0 <= i < |es| ==> r.value[i] == Event(uuid + i, stream, c, t.undo(es[i].body).value))
  {
    if es != [] {
      CompensateShape(t, stream, es[..|es| - 1], c, uuid);
    }
  }

  /** The events that `rollback(c)` applies to an aggregate with history `h`. */
  function Rollback<S>(t: Handlers<S>, stream: Id, h: seq<Event>, c: Id, uuid: nat): Option<seq<Event>> {
    Compensate(t, stream, Reversed(OfCorrelation(h, c)), c, uuid)
  }

  lemma {:induction false} ReplayAppend<S>(t: Handlers<S>, s: S, h: seq<Event>, k: seq<Event>)
    ensures ReplayFrom(t, s, h + k)
         == match ReplayFrom(t, s, h) case Ok(m) => ReplayFrom(t, m, k) case Err(f) => Err(f)
  {
    if k == [] {
      assert h + k == h;
    } else {
      ReplayAppend(t, s, h, k[..|k| - 1]);
      assert (h + k)[..|h + k| - 1] == h + k[..|k| - 1];
    }
  }

  lemma {:induction false} NewIsReplay<S>(t: Handlers<S>, s: S, es: seq<Event>)
    requires ApplyNewAll(t, s, es).Ok?
    ensures ReplayFrom(t, s, es) == ApplyNewAll(t, s, es)
  {
    if es != [] {
      NewIsReplay(t, s, es[..|es| - 1]);
    }
  }

  /** Stored state does not depend on ids, correlations or streams. */
  lemma {:induction false} ReplayReadsBodies<S>(t: Handlers<S>, s: S, h: seq<Event>, k: seq<Event>)
    requires |h| == |k| && forall i :: 0 <= i < |h| ==> h[i].body == k[i].body
    ensures ReplayFrom(t, s, h) == ReplayFrom(t, s, k)
  {
    if h != [] {
      ReplayReadsBodies(t, s, h[..|h| - 1], k[..|k| - 1]);
    }
  }

  /** No compensating event can itself be compensated. */
  ghost predicate UndoIsFinal<S>(t: Handlers<S>) {
    forall b :: t.undo(b).Some? ==> t.undo(t.undo(b).value).None?
  }

  /** After a rollback that did something, the same rollback throws: the history now holds a
      compensating event of the correlation, and that has no rollback method. */
  lemma SecondRollbackThrows<S>(t: Handlers<S>, stream: Id, h: seq<Event>, c: Id, uuid: nat, uuid': nat)
    requires UndoIsFinal(t)
    requires Rollback(t, stream, h, c, uuid).Some? && Rollback(t, stream, h, c, uuid).value != []
    ensures Rollback(t, stream, h + Rollback(t, stream, h, c, uuid).value, c, uuid') == None
  {
    hide Compensate, OfCorrelation;
    var undone := Reversed(OfCorrelation(h, c));
    var es := Rollback(t, stream, h, c, uuid).value;
    CompensateShape(t, stream, undone, c, uuid);
    assert es[0].body == t.undo(undone[0].body).value && es[0].corr == c;
    var all := OfCorrelation(h + es, c);
    CompensateShape(t, stream, Reversed(all), c, uuid');
    OfCorrelationMembers(h + es, c);
    assert es[0] in h + es;
    assert es[0] in all;
    var i :| 0 <= i < |all| && all[i] == es[0];
    assert Reversed(all)[|all| - 1 - i] == es[0];
  }

  /** One run of a rollback handler on a stream: `mergeContext`, `rollback(c)`, `commit`. Every
      throw on the way leaves the stream as it was. */
  function RollbackDelivery<S>(t: Handlers<S>, stream: Id, h: seq<Event>, c: Id, uuid: nat): seq<Event> {
    match Replay(t, h)
    case Err(_) => h
    case Ok(s) =>
      match Rollback(t, stream, h, c, uuid)
      case None => h
      case Some(es) => if ApplyNewAll(t, s, es).Ok? then h + es else h
  }

  function RollbackDeliveries<S>(t: Handlers<S>, stream: Id, h: seq<Event>, c: Id, uuids: seq<nat>): seq<Event> {
    if uuids == [] then h
    else
      RollbackDelivery(t, stream, RollbackDeliveries(t, stream, h, c, uuids[..|uuids| - 1]), c, uuids[|uuids| - 1])
  }

  /** Any positive number of deliveries of one rollback command has the effect of the first. */
  lemma {:induction false} RollbackIsIdempotent<S>(t: Handlers<S>, stream: Id, h: seq<Event>, c: Id, uuids: seq<nat>)
    requires UndoIsFinal(t)
    requires uuids != []
    ensures RollbackDeliveries(t, stream, h, c, uuids) == RollbackDelivery(t, stream, h, c, uuids[0])
  {
    var front := uuids[..|uuids| - 1];
    if front == [] {
      assert RollbackDeliveries(t, stream, h, c, front) == h;
    } else {
      RollbackIsIdempotent(t, stream, h, c, front);
      RedeliveryIsNoOp(t, stream, h, c, uuids[0], uuids[|uuids| - 1]);
    }
  }

  lemma RedeliveryIsNoOp<S>(t: Handlers<S>, stream: Id, h: seq<Event>, c: Id, uuid: nat, uuid': nat)
    requires UndoIsFinal(t)
    ensures RollbackDelivery(t, stream, RollbackDelivery(t, stream, h, c, uuid), c, uuid')
         == RollbackDelivery(t, stream, h, c, uuid)
  {
    var r, r' := Rollback(t, stream, h, c, uuid), Rollback(t, stream, h, c, uuid');
    CompensateShape(t, stream, Reversed(OfCorrelation(h, c)), c, uuid);
    CompensateShape(t, stream, Reversed(OfCorrelation(h, c)), c, uuid');
    assert r.None? <==> r'.None?;
    if r.Some? && Replay(t, h).Ok? {
      var s := Replay(t, h).value;
      if r.value == [] {
        assert r'.value == [] && h + r.value == h;
      } else if ApplyNewAll(t, s, r.value).Ok? {
        SecondRollbackThrows(t, stream, h, c, uuid, uuid');
      } else {
        ApplyNewReadsBodies(t, s, r.value, r'.value);
      }
    }
  }

  lemma {:induction false} ApplyNewReadsBodies<S>(t: Handlers<S>, s: S, h: seq<Event>, k: seq<Event>)
    requires |h| == |k| && forall i :: 0 <= i < |h| ==> h[i].body == k[i].body
    ensures ApplyNewAll(t, s, h) == ApplyNewAll(t, s, k)
  {
    if h != [] {
      ApplyNewReadsBodies(t, s, h[..|h| - 1], k[..|k| - 1]);
    }
  }

  /** The part of the state that `view` shows moves by `step` alone. */
  ghost predicate FollowsStep<S(!new), V>(t: Handlers<S>, view: S -> V, step: (V, Body) -> V) {
    forall s, b :: t.apply(s, b).Ok? ==> view(t.apply(s, b).value) == step(view(s), b)
  }

  /** The event sets the viewed part whatever it was before. */
  ghost predicate Overwrites<V(!new)>(step: (V, Body) -> V, b: Body) {
    forall v, v' :: step(v, b) == step(v', b)
  }

  /** Once a prefix overwrites a part of the state, that part no longer depends on where the
      replay started, whatever accumulates on it afterwards. */
  lemma {:induction false} OverwrittenPartIsReplayed<S(!new), V(!new)>(
      t: Handlers<S>, view: S -> V, step: (V, Body) -> V, s: S, s': S, p: seq<Event>, j: nat)
    requires FollowsStep(t, view, step)
    requires j < |p| && Overwrites(step, p[j].body)
    requires ReplayFrom(t, s, p).Ok? && ReplayFrom(t, s', p).Ok?
    ensures view(ReplayFrom(t, s, p).value) == view(ReplayFrom(t, s', p).value)
  {
    var front, last := p[..|p| - 1], p[|p| - 1];
    var m, m' := ReplayFrom(t, s, front).value, ReplayFrom(t, s', front).value;
    assert t.apply(m, last.body).Ok? && t.apply(m', last.body).Ok?;
    if j < |front| {
      OverwrittenPartIsReplayed(t, view, step, s, s', front, j);
    } else {
      assert step(view(m), last.body) == step(view(m'), last.body);
    }
  }

  /** The first position of a uuid in a history, or the length if it does not occur. */
  function FirstIndex(h: seq<Event>, uuid: nat): (k: nat)
    ensures k <= |h|
    ensures k < |h| ==> h[k].uuid == uuid
    ensures forall i :: 0 <= i < k ==> h[i].uuid != uuid
  {
    if h == [] then 0 else if h[0].uuid == uuid then 0 else 1 + FirstIndex(h[1..], uuid)
  }

  /** Applying `es` one by one threw at the first event that does not apply; everything before it
      stays applied. */
  ghost predicate StoppedAt<S>(t: Handlers<S>, s: S, h: seq<Event>, es: seq<Event>, f: Failure, s': S, h': seq<Event>) {
    exists j :: 0 <= j < |es| && ApplyNewAll(t, s, es[..j]) == Ok(s') && h' == h + es[..j]
                && ApplyNewAll(t, s, es[..j + 1]) == Err(f)
  }

  /** The last events of a history replaced by their stamped versions. */
  ghost predicate Restamped(h: seq<Event>, h': seq<Event>, stamped: seq<Event>) {
    |stamped| <= |h| && h' == h[..|h| - |stamped|] + stamped
  }

  class AggregateRoot<S> {
    const streamId: Id
    const table: Handlers<S>
    /** The fields of the subclass. */
    var state: S
    var history: seq<Event>
    var lastCommitted: Option<nat>
    /** Whether `_commitFn` is set. */
    var canCommit: bool

    ghost predicate Valid()
      reads this
    {
      && Replay(table, history) == Ok(state)
      && (lastCommitted.Some? ==> lastCommitted.value < |history|)
    }

    constructor (streamId: Id, table: Handlers<S>)
      ensures Valid() && this.streamId == streamId && this.table == table
      ensures history == [] && lastCommitted == None && !canCommit
    {
      this.streamId, this.table, this.state := streamId, table, table.initial;
      this.history, this.lastCommitted, this.canCommit := [], None, false;
    }

    function UncommittedHistory(): seq<Event>
      reads this
    {
      Uncommitted(history, lastCommitted)
    }

    /** `apply`: a rejected event leaves the aggregate as it was; an event from the store is
        committed at once. */
    method Apply(e: Event, fromHistory: bool) returns (r: Result<(), Failure>)
      requires Valid()
      modifies this
      ensures Valid() && canCommit == old(canCommit)
      ensures var outcome := if fromHistory then table.apply(old(state), e.body) else ApplyNew(table, old(state), e.body);
              match outcome
              case Ok(s) =>
                && r == Ok(()) && state == s
                && history == old(history) + [if e.stream == UNSET then e.(stream := streamId) else e]
                && lastCommitted == (if fromHistory then Some(|old(history)|) else old(lastCommitted))
                && UncommittedHistory() == (if fromHistory then [] else old(UncommittedHistory()) + [history[|history| - 1]])
              case Err(f) => r == Err(f) && unchanged(this)
    {
      if !fromHistory && table.deleted(state) {
        return Err(AggregateDeleted);
      }
      var next := table.apply(state, e.body);
      if next.Err? {
        return Err(next.error);
      }
      ghost var before := UncommittedHistory();
      state := next.value;
      var stored := if e.stream == UNSET then e.(stream := streamId) else e;
      assert (history + [stored])[..|history|] == history;
      history := history + [stored];
      if fromHistory {
        lastCommitted := Some(|history| - 1);
      }
      assert !fromHistory ==> UncommittedHistory() == before + [stored];
      return Ok(());
    }

    method SetCommitFunction() returns (r: Result<(), Failure>)
      modifies this`canCommit
      ensures canCommit
      ensures r == if old(canCommit) then Err(MultipleSet) else Ok(())
    {
      if canCommit {
        return Err(MultipleSet);
      }
      canCommit := true;
      return Ok(());
    }

    /** The part of `commit` that runs on the aggregate: it stamps the uncommitted events in place
        and hands them to the store. `_lastCommittedIndex` stays where it was. */
    method StampUncommitted(commandCorr: Id) returns (r: Result<seq<Event>, Failure>)
      requires Valid()
      modifies this`history
      ensures Valid()
      ensures !canCommit ==> r == Err(UnavailableCommit) && history == old(history)
      ensures canCommit ==> r == Ok(StampAll(old(UncommittedHistory()), commandCorr))
      ensures canCommit ==>
        Restamped(old(history), history, r.value) && UncommittedHistory() == r.value
    {
      hide ReplayFrom;
      if !canCommit {
        return Err(UnavailableCommit);
      }
      var start := match lastCommitted case None => 0 case Some(k) => k + 1;
      assert history == history[..start] + history[start..];
      assert UncommittedHistory() == history[start..];
      var stamped := StampAll(history[start..], commandCorr);
      ReplayReadsBodies(table, table.initial, history, history[..start] + stamped);
      history := history[..start] + stamped;
      return Ok(stamped);
    }

    /** `rollback(c)`. A missing rollback method is found before anything is applied. */
    method RollbackCorrelation(c: Id, uuid: nat) returns (r: Result<nat, Failure>)
      requires Valid()
      modifies this
      ensures Valid() && lastCommitted == old(lastCommitted) && canCommit == old(canCommit)
      ensures match Rollback(table, streamId, old(history), c, uuid)
              case None => r == Err(UnhandledEvent) && unchanged(this)
              case Some(es) =>
                match ApplyNewAll(table, old(state), es)
                case Ok(s) =>
                  && r == Ok(|es|) && state == s && history == old(history) + es
                  && UncommittedHistory() == old(UncommittedHistory()) + es
                case Err(f) => r == Err(f) && StoppedAt(table, old(state), old(history), es, f, state, history)
    {
      var undone := Reversed(OfCorrelation(history, c));
      var rollbackEvents: seq<Event> := [];
      for i := 0 to |undone|
        invariant |rollbackEvents| == i
        invariant Compensate(table, streamId, undone[..i], c, uuid) == Some(rollbackEvents)
      {
        assert undone[..i + 1][..i] == undone[..i];
        var b := table.undo(undone[i].body);
        if b.None? {
          CompensateShape(table, streamId, undone, c, uuid);
          return Err(UnhandledEvent);
        }
        rollbackEvents := rollbackEvents + [Event(uuid + i, streamId, c, b.value)];
      }
      assert undone[..|undone|] == undone;
      CompensateShape(table, streamId, undone, c, uuid);
      var applied := ApplyEach(rollbackEvents);
      r := match applied case Ok(_) => Ok(|rollbackEvents|) case Err(f) => Err(f);
    }

    method ApplyEach(es: seq<Event>) returns (r: Result<(), Failure>)
      requires Valid() && forall e :: e in es ==> e.stream == streamId
      modifies this
      ensures Valid() && lastCommitted == old(lastCommitted) && canCommit == old(canCommit)
      ensures match ApplyNewAll(table, old(state), es)
              case Ok(s) =>
                && r == Ok(()) && state == s && history == old(history) + es
                && UncommittedHistory() == old(UncommittedHistory()) + es
              case Err(f) => r == Err(f) && StoppedAt(table, old(state), old(history), es, f, state, history)
    {
      hide ApplyNewAll, ReplayFrom;
      NothingApplied(table, state, es);
      for i := 0 to |es|
        invariant Valid() && lastCommitted == old(lastCommitted) && canCommit == old(canCommit)
        invariant ApplyNewAll(table, old(state), es[..i]) == Ok(state)
        invariant history == old(history) + es[..i]
      {
        ApplyNewStep(table, old(state), es, i);
        var applied := Apply(es[i], false);
        if applied.Err? {
          return Err(applied.error);
        }
        assert history == old(history) + es[..i + 1];
      }
      assert es[..|es|] == es;
      UncommittedAppend(old(history), lastCommitted, es);
      return Ok(());
    }

    /** `getAggregatePriorTo`. The copy inherits the current fields and shares the history array, so
        every replayed event is also appended to the history of the original, and what a handler
        pushes onto an inherited array is pushed onto the original's. The scan stops at the first
        occurrence and would not stop without one. */
    method GetAggregatePriorTo(event: Event) returns (r: Result<S, Failure>)
      requires FirstIndex(history, event.uuid) < |history|
      requires streamId != UNSET && forall e :: e in history ==> e.stream != UNSET
      requires lastCommitted.Some? ==> lastCommitted.value < |history|
      modifies this`history, this`state
      ensures r == ReplayFrom(table, old(state), old(history)[..FirstIndex(old(history), event.uuid)])
      ensures r.Ok? ==>
        var p := old(history)[..FirstIndex(old(history), event.uuid)];
        && history == old(history) + p
        && UncommittedHistory() == old(UncommittedHistory()) + p
        && (p != [] ==> state == table.shared(old(state), p)) && (p == [] ==> state == old(state))
    {
      hide ReplayFrom;
      ghost var h, k := history, FirstIndex(history, event.uuid);
      ghost var p := h[..k];
      var idx := 0;
      var original, copy := state, state;
      NothingReplayed(table, state, p);
      while history[idx].uuid != event.uuid && idx < |history|
        invariant 0 <= idx <= k && p == h[..k]
        invariant history == h + p[..idx]
        invariant ReplayFrom(table, original, p[..idx]) == Ok(copy)
        invariant state == if idx == 0 then original else table.shared(original, p[..idx])
        decreases k - idx
      {
        assert history[idx] == h[idx] == p[idx];
        ReplayStep(table, original, p, idx);
        var next := table.apply(copy, history[idx].body);
        if next.Err? {
          return Err(next.error);
        }
        copy := next.value;
        history := history + [history[idx]];
        assert p[..idx + 1] == p[..idx] + [p[idx]];
        idx := idx + 1;
        assert history[|h|..] == p[..idx];
        state := table.shared(original, history[|history| - idx..]);
      }
      assert history[idx] == h[idx];
      assert p[..k] == p;
      UncommittedAppend(h, lastCommitted, p);
      return Ok(copy);
    }
  }

  lemma NothingApplied<S>(t: Handlers<S>, s: S, es: seq<Event>)
    ensures ApplyNewAll(t, s, es[..0]) == Ok(s)
  {
  }

  lemma NothingReplayed<S>(t: Handlers<S>, s: S, es: seq<Event>)
    ensures ReplayFrom(t, s, es[..0]) == Ok(s)
  {
  }

  lemma ReplayStep<S>(t: Handlers<S>, s: S, es: seq<Event>, i: nat)
    requires i < |es| && ReplayFrom(t, s, es[..i]).Ok?
    ensures ReplayFrom(t, s, es[..i + 1]) == t.apply(ReplayFrom(t, s, es[..i]).value, es[i].body)
    ensures ReplayFrom(t, s, es[..i + 1]).Err? ==> ReplayFrom(t, s, es) == ReplayFrom(t, s, es[..i + 1])
  {
    assert es[..i + 1][..i] == es[..i];
    if ReplayFrom(t, s, es[..i + 1]).Err? {
      ReplayFailurePersists(t, s, es, i + 1);
    }
  }

  lemma ApplyNewStep<S>(t: Handlers<S>, s: S, es: seq<Event>, i: nat)
    requires i < |es| && ApplyNewAll(t, s, es[..i]).Ok?
    ensures es[..i + 1] == es[..i] + [es[i]]
    ensures ApplyNewAll(t, s, es[..i + 1]) == ApplyNew(t, ApplyNewAll(t, s, es[..i]).value, es[i].body)
    ensures ApplyNewAll(t, s, es[..i + 1]).Err? ==> ApplyNewAll(t, s, es) == ApplyNewAll(t, s, es[..i + 1])
  {
    assert es[..i + 1][..i] == es[..i];
    if ApplyNewAll(t, s, es[..i + 1]).Err? {
      FailurePersists(t, s, es, i + 1);
    }
  }

  lemma {:induction false} FailurePersists<S>(t: Handlers<S>, s: S, es: seq<Event>, n: nat)
    requires n <= |es| && ApplyNewAll(t, s, es[..n]).Err?
    ensures ApplyNewAll(t, s, es) == ApplyNewAll(t, s, es[..n])
  {
    if n == |es| {
      assert es[..n] == es;
    } else {
      assert es[..|es| - 1][..n] == es[..n];
      FailurePersists(t, s, es[..|es| - 1], n);
    }
  }

  lemma {:induction false} ReplayFailurePersists<S>(t: Handlers<S>, s: S, es: seq<Event>, n: nat)
    requires n <= |es| && ReplayFrom(t, s, es[..n]).Err?
    ensures ReplayFrom(t, s, es) == ReplayFrom(t, s, es[..n])
  {
    if n == |es| {
      assert es[..n] == es;
    } else {
      assert es[..|es| - 1][..n] == es[..n];
      ReplayFailurePersists(t, s, es[..|es| - 1], n);
    }
  }
}
