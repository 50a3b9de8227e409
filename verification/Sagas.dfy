/** Sagas: which commands an event leads to, and which rollback commands a correlation has
    registered in the cache before those commands are handed out. */
module Sagas {
  import opened Events
  import opened Messages
  import Caches

  const CORRELATION_PREFIX := "moirae__correlation"
  const ROLLBACK_ACCOUNT := "RollbackAccountCommand"

  /** An absent id is interpolated as "undefined". */
  function KeyText(c: Id): string {
    if c == UNSET then "undefined" else c
  }

  /** The cache set of a correlation. */
  function SetKey(c: Id): string {
    CORRELATION_PREFIX + "__" + KeyText(c)
  }

  lemma SetKeysDiffer(c: Id, d: Id)
    ensures SetKey(c) == SetKey(d) <==> KeyText(c) == KeyText(d)
  {
    var p := CORRELATION_PREFIX + "__";
    assert SetKey(c)[|p|..] == KeyText(c);
    assert SetKey(d)[|p|..] == KeyText(d);
  }

  function Entry(name: string, stream: Id): string {
    name + ":" + stream
  }

  /** The first field of `split(":")`. */
  function Head(s: string): string {
    if s == "" || s[0] == ':' then "" else [s[0]] + Head(s[1..])
  }

  /** What follows the first colon. */
  function Rest(s: string): string {
    if s == "" then "" else if s[0] == ':' then s[1..] else Rest(s[1..])
  }

  /** `const [name, id] = commandKey.split(":")`. */
  function Decode(entry: string): (string, Id) {
    (Head(entry), Head(Rest(entry)))
  }

  lemma {:induction false} HeadOf(s: string, t: string)
    requires ':' !in s
    ensures Head(s + ":" + t) == s && Rest(s + ":" + t) == t
  {
    var all := s + ":" + t;
    if s == "" {
      assert all[0] == ':' && all[1..] == t;
    } else {
      HeadOf(s[1..], t);
      assert all[0] == s[0] && all[1..] == s[1..] + ":" + t;
      assert s[0] != ':';
    }
  }

  lemma {:induction false} HeadIsWhole(s: string)
    ensures Head(s) == s <==> ':' !in s
  {
    if s != "" {
      HeadIsWhole(s[1..]);
      assert s == [s[0]] + s[1..];
      if s[0] != ':' && Head(s) == s {
        assert Head(s)[1..] == Head(s[1..]);
      }
    }
  }

  /** An entry decodes to what was registered exactly when the stream id has no colon; otherwise
      the rollback goes to the part before the first one. */
  lemma EntryRoundTrip(name: string, stream: Id)
    requires ':' !in name
    ensures Decode(Entry(name, stream)) == (name, Head(stream))
    ensures Decode(Entry(name, stream)) == (name, stream) <==> ':' !in stream
  {
    HeadOf(name, stream);
    HeadIsWhole(stream);
  }

  /** `_storeRollbackCommand`. */
  function Register(sets: Caches.Sets, c: Id, name: string, stream: Id): Caches.Sets {
    Caches.Add(sets, SetKey(c), Entry(name, stream)).0
  }

  /** What `rollbackSagas` reads and decodes. */
  function Targets(sets: Caches.Sets, c: Id): seq<(string, Id)> {
    var entries := Caches.Members(sets, SetKey(c));
    seq(|entries|, i requires 0 <= i < |entries| => Decode(entries[i]))
  }

  /** The rollback commands it builds: a constructor sets no correlation id on the command. */
  function RollbackMessages(sets: Caches.Sets, c: Id): (r: seq<Message>)
    ensures |r| == |Caches.Members(sets, SetKey(c))|
  {
    var targets := Targets(sets, c);
    seq(|targets|, i requires 0 <= i < |targets| => Message(RollbackAccount(targets[i].1, c), UNSET))
  }

  datatype Registration = Registration(corr: Id, name: string, stream: Id)

  function RegisterAll(rs: seq<Registration>): Caches.Sets {
    if rs == [] then map[]
    else
      var last := rs[|rs| - 1];
      Register(RegisterAll(rs[..|rs| - 1]), last.corr, last.name, last.stream)
  }

  ghost predicate Proper(r: Registration) {
    ':' !in r.name && ':' !in r.stream && r.corr != "undefined"
  }

  /** Every entry is what its decoded pair encodes to. */
  ghost predicate Canonical(entries: seq<string>) {
    forall e :: e in entries ==> Entry(Decode(e).0, Decode(e).1) == e
  }

  /** However often pairs were registered, and for whichever correlations, a correlation decodes to
      each of its own pairs exactly once and to nothing else. */
  lemma {:induction false} RegistryRoundTrip(rs: seq<Registration>, c: Id)
    requires c != "undefined" && forall r :: r in rs ==> Proper(r)
    ensures Canonical(Caches.Members(RegisterAll(rs), SetKey(c)))
    ensures var ts := Targets(RegisterAll(rs), c);
            && (forall i, j :: 0 <= i < j < |ts| ==> ts[i] != ts[j])
            && (forall name, stream :: (name, stream) in ts <==> Registration(c, name, stream) in rs)
  {
    if rs != [] {
      var front, last := rs[..|rs| - 1], rs[|rs| - 1];
      assert rs == front + [last];
      RegistryRoundTrip(front, c);
      assert last in rs;
      RegisterEffect(RegisterAll(front), c, last);
    }
  }

  /** Registering adds the pair to the targets of its correlation unless it is there already. */
  lemma RegisterEffect(sets: Caches.Sets, c: Id, r: Registration)
    requires c != "undefined" && Proper(r) && Canonical(Caches.Members(sets, SetKey(c)))
    ensures var ts, sets' := Targets(sets, c), Register(sets, r.corr, r.name, r.stream);
            && Canonical(Caches.Members(sets', SetKey(c)))
            && Targets(sets', c) == if r.corr != c || (r.name, r.stream) in ts then ts else ts + [(r.name, r.stream)]
  {
    EntryRoundTrip(r.name, r.stream);
    if r.corr != c {
      SetKeysDiffer(r.corr, c);
    } else {
      var ts, entries := Targets(sets, c), Caches.Members(sets, SetKey(c));
      var entry := Entry(r.name, r.stream);
      if entry in entries {
        var i :| 0 <= i < |entries| && entries[i] == entry;
        assert ts[i] == (r.name, r.stream);
      } else {
        forall i | 0 <= i < |ts|
          ensures ts[i] != (r.name, r.stream)
        {
          assert entries[i] in entries;
        }
        assert Targets(Register(sets, c, r.name, r.stream), c) == ts + [(r.name, r.stream)];
      }
    }
  }

  // ---- Sagas ----

  /** One `@SagaStep`: the event it handles, the method, the rollback command. */
  datatype SagaStep = SagaStep(handles: Body -> bool, run: Event -> seq<Command>, rollback: string)

  function FromSaga(cs: seq<Command>): seq<Message> {
    seq(|cs|, i requires 0 <= i < |cs| => Message(cs[i], UNSET))
  }

  /** `process`: a step that produced commands is registered before they are handed over. */
  function Process(sets: Caches.Sets, steps: seq<SagaStep>, e: Event): (Caches.Sets, seq<Message>) {
    if steps == [] then (sets, [])
    else
      var (before, commands) := Process(sets, steps[..|steps| - 1], e);
      var last := steps[|steps| - 1];
      if !last.handles(e.body) then (before, commands)
      else
        var produced := last.run(e);
        (if produced == [] then before else Register(before, e.corr, last.rollback, e.stream),
         commands + FromSaga(produced))
  }

  /** `applyEventToSagas`, the sagas in order. */
  function ProcessAll(sets: Caches.Sets, sagas: seq<seq<SagaStep>>, e: Event): (Caches.Sets, seq<Message>) {
    if sagas == [] then (sets, [])
    else
      var (before, commands) := ProcessAll(sets, sagas[..|sagas| - 1], e);
      var (after, more) := Process(before, sagas[|sagas| - 1], e);
      (after, commands + more)
  }

  lemma AddKeeps(sets: Caches.Sets, key: string, value: string, k: string, v: string)
    ensures v in Caches.Members(sets, k) ==> v in Caches.Members(Caches.Add(sets, key, value).0, k)
    ensures value in Caches.Members(Caches.Add(sets, key, value).0, key)
  {
  }

  /** Some step that handles the event produced the command, and its rollback is registered. */
  ghost predicate Covered(m: Message, steps: seq<SagaStep>, e: Event, sets: Caches.Sets) {
    exists s :: s in steps && s.handles(e.body) && m.command in s.run(e)
                && Entry(s.rollback, e.stream) in Caches.Members(sets, SetKey(e.corr))
  }

  lemma CoveredGrows(m: Message, front: seq<SagaStep>, steps: seq<SagaStep>, e: Event, sets: Caches.Sets, key: string, value: string)
    requires Covered(m, front, e, sets) && forall s :: s in front ==> s in steps
    ensures Covered(m, steps, e, sets) && Covered(m, steps, e, Caches.Add(sets, key, value).0)
  {
    hide SetKey, Entry;
    var s :| s in front && s.handles(e.body) && m.command in s.run(e)
          && Entry(s.rollback, e.stream) in Caches.Members(sets, SetKey(e.corr));
    assert s in steps;
    AddKeeps(sets, key, value, SetKey(e.corr), Entry(s.rollback, e.stream));
  }

  /** For every saga and every event: each command handed out comes from a step whose rollback
      command is, by then, registered for the stream of the event under its correlation; and
      nothing registered earlier is lost. */
  lemma {:induction false} RegisteredBeforeHandedOut(sets: Caches.Sets, steps: seq<SagaStep>, e: Event, k: string, v: string)
    ensures v in Caches.Members(sets, k) ==> v in Caches.Members(Process(sets, steps, e).0, k)
    ensures forall m :: m in Process(sets, steps, e).1 ==> Covered(m, steps, e, Process(sets, steps, e).0)
  {
    if steps != [] {
      hide SetKey, Entry, Covered;
      var front, last := steps[..|steps| - 1], steps[|steps| - 1];
      var (before, commands) := Process(sets, front, e);
      RegisteredBeforeHandedOut(sets, front, e, k, v);
      assert last in steps && forall s :: s in front ==> s in steps;
      AddKeeps(before, SetKey(e.corr), Entry(last.rollback, e.stream), k, v);
      forall m | m in Process(sets, steps, e).1
        ensures Covered(m, steps, e, Process(sets, steps, e).0)
      {
        if m in commands {
          CoveredGrows(m, front, steps, e, before, SetKey(e.corr), Entry(last.rollback, e.stream));
        } else {
          assert m in FromSaga(last.run(e));
          LastCovers(m, steps, e, before);
        }
      }
    }
  }

  /** Every step that handles the event has all of its commands handed out, in the order of the steps, and
      nothing else is. */
  lemma {:induction false} EverythingHandedOut(sets: Caches.Sets, steps: seq<SagaStep>, e: Event)
    ensures Process(sets, steps, e).1 == AllProduced(steps, e)
  {
    if steps != [] {
      EverythingHandedOut(sets, steps[..|steps| - 1], e);
      assert FromSaga([]) == [];
      var before := AllProduced(steps[..|steps| - 1], e);
      assert before + [] == before;
    }
  }

  /** The commands of each handling step, one step after the other. */
  function AllProduced(steps: seq<SagaStep>, e: Event): seq<Message> {
    if steps == [] then []
    else
      var last := steps[|steps| - 1];
      AllProduced(steps[..|steps| - 1], e)
        + seq(if last.handles(e.body) then |last.run(e)| else 0,
              i requires 0 <= i < if last.handles(e.body) then |last.run(e)| else 0 => Message(last.run(e)[i], UNSET))
  }

  /** And nothing is registered but the rollback of a handling step that produced something, under the
      correlation of the event, for its stream. */
  lemma {:induction false} NothingElseRegistered(sets: Caches.Sets, steps: seq<SagaStep>, e: Event, k: string, v: string)
    ensures v in Caches.Members(Process(sets, steps, e).0, k) <==>
      || v in Caches.Members(sets, k)
      || (k == SetKey(e.corr)
          && exists s :: s in steps && s.handles(e.body) && s.run(e) != [] && v == Entry(s.rollback, e.stream))
  {
    if steps != [] {
      hide SetKey, Entry;
      var front, last := steps[..|steps| - 1], steps[|steps| - 1];
      NothingElseRegistered(sets, front, e, k, v);
      assert steps == front + [last];
      assert last in steps && forall s :: s in steps <==> s in front || s == last;
    }
  }

  lemma LastCovers(m: Message, steps: seq<SagaStep>, e: Event, sets: Caches.Sets)
    requires steps != [] && steps[|steps| - 1].handles(e.body) && m in FromSaga(steps[|steps| - 1].run(e))
    ensures Covered(m, steps, e, Register(sets, e.corr, steps[|steps| - 1].rollback, e.stream))
  {
    var last := steps[|steps| - 1];
    assert last in steps && m.command in last.run(e);
    AddKeeps(sets, SetKey(e.corr), Entry(last.rollback, e.stream), "", "");
  }

  /** `ProcessOrderSaga.postOrderCreated`. */
  function PostOrderCreated(e: Event): seq<Command> {
    if e.body.OrderCreated? then
      [RemoveInventory(e.body.order.inventoryId, e.body.order.id, e.body.order.quantity)]
    else []
  }

  const PROCESS_ORDER: seq<SagaStep> :=
    [SagaStep((b: Body) => b.OrderCreated?, (e: Event) => PostOrderCreated(e), ROLLBACK_ACCOUNT)]

  /** What the demo's one saga does with an event. */
  lemma ProcessOrderStep(sets: Caches.Sets, e: Event)
    ensures ProcessAll(sets, [PROCESS_ORDER], e)
         == if e.body.OrderCreated? then
              (Register(sets, e.corr, ROLLBACK_ACCOUNT, e.stream),
               [Message(RemoveInventory(e.body.order.inventoryId, e.body.order.id, e.body.order.quantity), UNSET)])
            else (sets, [])
  {
    OneSaga(sets, PROCESS_ORDER, e);
    OneStep(sets, PROCESS_ORDER[0], e);
    assert PROCESS_ORDER == [PROCESS_ORDER[0]];
    if e.body.OrderCreated? {
      var remove := RemoveInventory(e.body.order.inventoryId, e.body.order.id, e.body.order.quantity);
      assert PROCESS_ORDER[0].run(e) == [remove];
      assert FromSaga([remove]) == [Message(remove, UNSET)];
    }
  }

  lemma OneSaga(sets: Caches.Sets, steps: seq<SagaStep>, e: Event)
    ensures ProcessAll(sets, [steps], e) == Process(sets, steps, e)
  {
    assert [steps][..0] == [];
    assert ProcessAll(sets, [steps][..0], e) == (sets, []);
    assert [] + Process(sets, steps, e).1 == Process(sets, steps, e).1;
  }

  lemma OneStep(sets: Caches.Sets, step: SagaStep, e: Event)
    ensures Process(sets, [step], e)
         == if !step.handles(e.body) then (sets, [])
            else (if step.run(e) == [] then sets else Register(sets, e.corr, step.rollback, e.stream), FromSaga(step.run(e)))
  {
    assert [step][..0] == [];
    assert Process(sets, [step][..0], e) == (sets, []);
    if step.handles(e.body) {
      assert [] + FromSaga(step.run(e)) == FromSaga(step.run(e));
    }
  }

  class Saga {
    const steps: seq<SagaStep>
    const cache: Caches.MemoryCache

    constructor (steps: seq<SagaStep>, cache: Caches.MemoryCache)
      ensures this.steps == steps && this.cache == cache
    {
      this.steps, this.cache := steps, cache;
    }

    method StoreRollbackCommand(c: Id, name: string, stream: Id)
      modifies cache`sets
      ensures cache.sets == Register(old(cache.sets), c, name, stream)
    {
      var _ := cache.HandleAddToSet(SetKey(c), Entry(name, stream));
    }

    method ProcessEvent(e: Event) returns (commands: seq<Message>)
      modifies cache`sets
      ensures (cache.sets, commands) == Process(old(cache.sets), steps, e)
    {
      commands := [];
      for i := 0 to |steps|
        invariant (cache.sets, commands) == Process(old(cache.sets), steps[..i], e)
      {
        assert steps[..i + 1][..i] == steps[..i];
        if steps[i].handles(e.body) {
          var produced := steps[i].run(e);
          if |produced| > 0 {
            StoreRollbackCommand(e.corr, steps[i].rollback, e.stream);
          }
          commands := commands + FromSaga(produced);
        }
      }
      assert steps[..|steps|] == steps;
    }
  }

  function StepsOf(sagas: seq<Saga>): seq<seq<SagaStep>> {
    seq(|sagas|, i requires 0 <= i < |sagas| => sagas[i].steps)
  }

  class SagaManager {
    const cache: Caches.MemoryCache
    var sagas: seq<Saga>

    /** Bootstrap gives every saga the cache of the manager. */
    ghost predicate Valid()
      reads this
    {
      forall s :: s in sagas ==> s.cache == cache
    }

    constructor (cache: Caches.MemoryCache)
      ensures Valid() && this.cache == cache && sagas == []
    {
      this.cache, sagas := cache, [];
    }

    method AddSaga(saga: Saga)
      requires Valid() && saga.cache == cache
      modifies this`sagas
      ensures Valid() && sagas == old(sagas) + [saga]
    {
      sagas := sagas + [saga];
    }

    method ApplyEventToSagas(e: Event) returns (commands: seq<Message>)
      requires Valid()
      modifies cache`sets
      ensures (cache.sets, commands) == ProcessAll(old(cache.sets), StepsOf(sagas), e)
    {
      commands := [];
      ghost var all := StepsOf(sagas);
      for i := 0 to |sagas|
        invariant (cache.sets, commands) == ProcessAll(old(cache.sets), all[..i], e)
      {
        assert all[..i + 1][..i] == all[..i];
        assert sagas[i] in sagas;
        var more := sagas[i].ProcessEvent(e);
        commands := commands + more;
      }
      assert all[..|all|] == all;
    }

    method RollbackSagas(c: Id) returns (commands: seq<Message>)
      ensures commands == RollbackMessages(cache.sets, c)
    {
      var entries := cache.HandleReadFromSet(SetKey(c));
      commands := [];
      for i := 0 to |entries|
        invariant |commands| == i
        invariant forall j :: 0 <= j < i ==> commands[j] == Message(RollbackAccount(Decode(entries[j]).1, c), UNSET)
      {
        var (name, id) := Decode(entries[i]);
        commands := commands + [Message(RollbackAccount(id, c), UNSET)];
      }
    }
  }
}
