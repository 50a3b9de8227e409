/** Every step of the order system keeps the invariant. One lemma for each kind of step, over
    lemmas about the parts of the state that the step changes. */
module OrderPreservation {
  import opened Wrappers
  import opened Events
  import opened Aggregates
  import opened Messages
  import opened Decisions
  import opened OrderSystem
  import opened OrderInvariant
  import Accounts
  import Inventories
  import Sagas
  import Caches

  // ---- Appending to the log ----

  lemma PartsAppend(log: seq<Event>, es: seq<Event>, c: Id)
    ensures AccountPart(log + es, c) == AccountPart(log, c) + AccountPart(es, c)
    ensures RemovalPart(log + es, c) == RemovalPart(log, c) + RemovalPart(es, c)
  {
    FilterAppend(log, es, (e: Event) => InAccountPart(e, c));
    FilterAppend(log, es, (e: Event) => InRemovalPart(e, c));
  }

  lemma PartsOfOthers(log: seq<Event>, es: seq<Event>, c: Id)
    requires forall e :: e in es ==> e.corr != c
    ensures AccountPart(log + es, c) == AccountPart(log, c)
    ensures RemovalPart(log + es, c) == RemovalPart(log, c)
  {
    PartsAppend(log, es, c);
    FilterNone(es, (e: Event) => InAccountPart(e, c));
    FilterNone(es, (e: Event) => InRemovalPart(e, c));
  }

  lemma PartsOfUnused(log: seq<Event>, c: Id)
    requires forall e :: e in log ==> e.corr != c
    ensures AccountPart(log, c) == [] && RemovalPart(log, c) == []
  {
    FilterNone(log, (e: Event) => InAccountPart(e, c));
    FilterNone(log, (e: Event) => InRemovalPart(e, c));
  }

  lemma PartsOfPair(e: Event, e': Event, c: Id)
    requires InAccountPart(e, c) && InAccountPart(e', c)
    ensures AccountPart([e, e'], c) == [e, e'] && RemovalPart([e, e'], c) == []
  {
    FilterAll([e, e'], (x: Event) => InAccountPart(x, c));
    FilterNone([e, e'], (x: Event) => InRemovalPart(x, c));
  }

  lemma PartsOfRemoval(e: Event, c: Id)
    requires InRemovalPart(e, c)
    ensures AccountPart([e], c) == [] && RemovalPart([e], c) == [e]
  {
    FilterNone([e], (x: Event) => InAccountPart(x, c));
    FilterAll([e], (x: Event) => InRemovalPart(x, c));
  }

  /** Events that belong to no order. */
  ghost predicate Ordinary(es: seq<Event>, b: Book) {
    forall e :: e in es ==> e.corr !in b && !OrderBody(e.body)
  }

  lemma OrdinaryKeepsLog(log: seq<Event>, b: Book, es: seq<Event>)
    requires LogOk(log, b) && Ordinary(es, b)
    ensures LogOk(log + es, b)
    ensures forall c :: c in b ==> AccountPart(log + es, c) == AccountPart(log, c)
  {
    forall c | c in b
      ensures AccountPart(log + es, c) == AccountPart(log, c) && RemovalPart(log + es, c) == RemovalPart(log, c)
    {
      PartsOfOthers(log, es, c);
    }
  }

  lemma OrdinaryKeepsDue(due: multiset<Event>, log: seq<Event>, b: Book, inventories: set<Id>, nextId: nat, es: seq<Event>)
    requires DueOk(due, log, b) && BookOk(b, inventories, nextId)
    requires forall e :: e in es ==> !e.body.OrderCreated?
    ensures DueOk(due + multiset(es), log + es, b)
  {
    forall c | c in b
      ensures (due + multiset(es))[b[c].placed] == due[b[c].placed]
    {
      assert EntryOk(c, b[c], inventories, nextId);
      assert b[c].placed !in es;
    }
  }

  /** These apply to every account state. */
  predicate AlwaysApplies(b: Body) {
    !InventoryBody(b) && !b.RollbackOrderCreated?
  }

  lemma {:induction false} ReplayContinues(s: Accounts.Account, k: seq<Event>)
    requires forall e :: e in k ==> AlwaysApplies(e.body)
    ensures ReplayFrom(Accounts.HANDLERS, s, k).Ok?
  {
    if k != [] {
      assert k == k[..|k| - 1] + [k[|k| - 1]];
      ReplayContinues(s, k[..|k| - 1]);
      assert k[|k| - 1] in k;
    }
  }

  lemma StreamsAppend(log: seq<Event>, inventories: set<Id>, nextId: nat, es: seq<Event>, nextId': nat)
    requires StreamsOk(log, inventories, nextId) && nextId <= nextId'
    requires forall e :: e in es ==> (InventoryBody(e.body) <==> e.stream in inventories)
    requires forall e :: e in es ==> |e.stream| <= nextId' && |e.corr| <= nextId'
    requires forall e :: e in es ==> !e.body.RollbackOrderCreated?
    ensures StreamsOk(log + es, inventories, nextId')
  {
    forall id | id !in inventories
      ensures Replay(Accounts.HANDLERS, OfStream(log + es, id)).Ok?
    {
      FilterAppend(log, es, (e: Event) => e.stream == id);
      var h, k := OfStream(log, id), OfStream(es, id);
      OfStreamMembers(es, id);
      ReplayAppend(Accounts.HANDLERS, Accounts.HANDLERS.initial, h, k);
      ReplayContinues(Replay(Accounts.HANDLERS, h).value, k);
      assert OfStream(log + es, id) == h + k;
    }
  }

  // ---- Queues as multisets ----

  lemma RemoveAtMultiset<T>(s: seq<T>, i: nat)
    requires i < |s|
    ensures multiset(RemoveAt(s, i)) == multiset(s) - multiset{s[i]}
    ensures s[i] in multiset(s)
  {
    assert s == s[..i] + [s[i]] + s[i + 1..];
  }

  lemma HeadMultiset<T>(s: seq<T>)
    requires s != []
    ensures multiset(s) == multiset(s[1..]) + multiset{s[0]}
  {
    assert s == [s[0]] + s[1..];
  }

  // ---- The registry ----

  lemma RegistryOfOthers(sets: Caches.Sets, b: Book, c: Id)
    requires RegistryOk(sets, b) && c !in b
    ensures Sagas.RollbackMessages(sets, c) == []
  {
    assert Caches.Members(sets, Sagas.SetKey(c)) == [];
  }

  lemma RegistryOfOrder(sets: Caches.Sets, b: Book, c: Id)
    requires RegistryOk(sets, b) && c in b && ':' !in b[c].order.accountId
    ensures Sagas.RollbackMessages(sets, c)
         == if Registered(b[c].phase) then [RollbackMessage(c, b[c].order, UNSET)] else []
  {
    if Registered(b[c].phase) {
      assert Caches.Members(sets, Sagas.SetKey(c)) == [Sagas.Entry(Sagas.ROLLBACK_ACCOUNT, b[c].order.accountId)];
      Sagas.EntryRoundTrip(Sagas.ROLLBACK_ACCOUNT, b[c].order.accountId);
    } else {
      assert Caches.Members(sets, Sagas.SetKey(c)) == [];
    }
  }

  // ---- What handlers decide ----

  function Outcome(d: Decision): seq<Event> {
    match d
    case Commit(es) => es
    case Throw(reported) => reported
  }

  /** Everything a public command but a committed order appends. */
  lemma OrdinaryDecision(r: Run, nameTaken: bool, uuid: nat)
    requires External(r.message.command)
    requires !(r.message.command.CreateOrder? && Decide(r, nameTaken, uuid).Commit?)
    ensures forall e :: e in Outcome(Decide(r, nameTaken, uuid)) ==>
      && (e.corr == r.message.corr || e.corr == UNSET)
      && e.stream == Target(r.message.command, r.streamId)
      && !OrderBody(e.body)
      && (InventoryBody(e.body) <==> r.message.command.CreateInventory?)
  {
  }

  lemma OrderDecision(r: Run, nameTaken: bool, uuid: nat)
    requires r.message.command.CreateOrder? && Decide(r, nameTaken, uuid).Commit?
    ensures var c := r.message.command;
      && r.row.Some?
      && var order := Order(r.orderId, c.accountId, c.inventoryId, r.row.value.price * c.quantity, c.quantity);
         Decide(r, nameTaken, uuid) == Commit([
           Event(uuid, c.accountId, r.message.corr, OrderCreated(order)),
           Event(uuid + 1, c.accountId, r.message.corr, FundsWithdrawn(-order.cost))])
  {
  }

  /** The compensating events that a rollback run commits for an order, or its throw. */
  lemma RollbackDecision(r: Run, c: Id, e: Entry, uuid: nat)
    requires r.message.command == RollbackAccount(e.order.accountId, c) && c != UNSET
    requires Replay(Accounts.HANDLERS, r.snapshot).Ok?
    requires e.placed.body == OrderCreated(e.order) && e.paid.body == FundsWithdrawn(-e.order.cost)
    ensures OfCorrelation(r.snapshot, c) == [e.placed, e.paid] ==>
      Decide(r, false, uuid) == Commit([
        Event(uuid, e.order.accountId, c, RollbackFundsWithdrawn(-e.order.cost)),
        Event(uuid + 1, e.order.accountId, c, RollbackOrderCreated(e.order.id))])
    ensures (exists x :: x in OfCorrelation(r.snapshot, c) && x.body.RollbackFundsWithdrawn?) ==>
      Decide(r, false, uuid) == Throw([])
  {
    var h, cs := r.snapshot, OfCorrelation(r.snapshot, c);
    Accounts.RollbackSucceeds(e.order.accountId, h, c, uuid);
    if cs == [e.placed, e.paid] {
      Accounts.CompensationApplies(e.order.accountId, h, c, uuid);
      CompensateShape(Accounts.HANDLERS, e.order.accountId, Reversed(cs), c, uuid);
      var es := Rollback(Accounts.HANDLERS, e.order.accountId, h, c, uuid).value;
      var undo := [
        Event(uuid, e.order.accountId, c, RollbackFundsWithdrawn(-e.order.cost)),
        Event(uuid + 1, e.order.accountId, c, RollbackOrderCreated(e.order.id))];
      assert Reversed(cs)[0] == e.paid && Reversed(cs)[1] == e.placed;
      assert es == undo;
      assert StampAll(es, r.message.corr) == undo;
    }
  }

  // ---- Requests and the runs they start ----

  lemma RunKept(r: Run, log: seq<Event>, b: Book, inventories: set<Id>, nextId: nat,
                es: seq<Event>, b': Book, inventories': set<Id>, nextId': nat)
    requires RunOk(r, log, b, inventories, nextId) && nextId <= nextId'
    requires forall e :: e in es ==> e.corr != r.message.corr
    requires forall c :: c in b' ==> c != r.message.corr && b'[c].order.id != r.orderId
    requires forall id :: |id| <= nextId ==> (id in inventories <==> id in inventories')
    requires inventories <= inventories'
    ensures RunOk(r, log + es, b', inventories', nextId')
  {
  }

  /** Two sets of inventory ids that agree on every id in use. */
  ghost predicate Extends(inventories: set<Id>, inventories': set<Id>, nextId: nat) {
    inventories <= inventories' && forall id :: |id| <= nextId ==> (id in inventories <==> id in inventories')
  }

  lemma RequestKeepsInv(s: System, b: Book, c: Command)
    requires Enabled(s, Request(c)) && Inv(s, b)
    ensures Inv(Accept(s, c), b)
  {
    hide BookOk, LogOk, StreamsOk, RunsOk, DueOk, WorkOk, CompensationOwed, RegistryOk, WorkerOk, Start, Extends;
    var s' := Accept(s, c);
    AcceptExtends(s, c);
    RequestKeepsBook(b, s.inventories, s.nextId, s'.inventories, s'.nextId);
    RequestKeepsStreams(s.log, s.inventories, s.nextId, s'.inventories, s'.nextId);
    RequestKeepsRuns(s, b, c);
    assert Due(s') == Due(s) && Work(s') == Work(s);
  }

  lemma AcceptExtends(s: System, c: Command)
    requires StreamsOk(s.log, s.inventories, s.nextId)
    ensures var s' := Accept(s, c);
            && Extends(s.inventories, s'.inventories, s.nextId) && s.nextId <= s'.nextId
            && forall id :: id in s'.inventories ==> |id| <= s'.nextId
  {
  }

  lemma RequestKeepsBook(b: Book, inventories: set<Id>, nextId: nat, inventories': set<Id>, nextId': nat)
    requires BookOk(b, inventories, nextId) && nextId <= nextId' && Extends(inventories, inventories', nextId)
    ensures BookOk(b, inventories', nextId')
  {
    forall c | c in b
      ensures EntryOk(c, b[c], inventories', nextId')
    {
      assert EntryOk(c, b[c], inventories, nextId);
    }
  }

  lemma RequestKeepsStreams(log: seq<Event>, inventories: set<Id>, nextId: nat, inventories': set<Id>, nextId': nat)
    requires StreamsOk(log, inventories, nextId) && nextId <= nextId' && Extends(inventories, inventories', nextId)
    requires forall id :: id in inventories' ==> |id| <= nextId'
    ensures StreamsOk(log, inventories', nextId')
  {
  }

  lemma UuidIsProper(n: nat)
    ensures Uuid(n) != "undefined"
  {
    assert "undefined"[1] == 'n';
  }

  lemma ShorterIsOther(s: System, b: Book, base: nat)
    requires BookOk(b, s.inventories, s.nextId) && StreamsOk(s.log, s.inventories, s.nextId) && s.nextId <= base
    ensures Uuid(base) !in b && Uuid(base + 1) !in s.inventories
    ensures forall e :: e in s.log ==> e.corr != Uuid(base)
    ensures forall c :: c in b ==> b[c].order.id != Uuid(base + 2)
  {
    forall c | c in b
      ensures |c| <= s.nextId && |b[c].order.id| <= s.nextId
    {
      assert EntryOk(c, b[c], s.inventories, s.nextId);
    }
  }

  lemma NewRunOk(s: System, b: Book, c: Command)
    requires BookOk(b, s.inventories, s.nextId) && StreamsOk(s.log, s.inventories, s.nextId)
    requires s.rows.Keys <= s.inventories && Admissible(s, c)
    ensures var s' := Accept(s, c);
            RunOk(s'.runs[|s.runs|], s.log, b, s'.inventories, s'.nextId)
  {
    var s' := Accept(s, c);
    var base := Max(s.nextId, Mentioned(c));
    UuidIsProper(base);
    ShorterIsOther(s, b, base);
    assert s'.runs[|s.runs|] == Start(s, Message(c, Uuid(base)), Uuid(base + 1), Uuid(base + 2));
  }

  lemma RequestKeepsRuns(s: System, b: Book, c: Command)
    requires BookOk(b, s.inventories, s.nextId) && StreamsOk(s.log, s.inventories, s.nextId)
    requires s.rows.Keys <= s.inventories && Admissible(s, c)
    requires RunsOk(s.runs, s.log, b, s.inventories, s.nextId)
    ensures var s' := Accept(s, c);
            RunsOk(s'.runs, s'.log, b, s'.inventories, s'.nextId)
  {
    var s' := Accept(s, c);
    NewRunOk(s, b, c);
    AcceptExtends(s, c);
    assert s.log + [] == s.log;
    forall x | x in s.runs
      ensures RunOk(x, s.log, b, s'.inventories, s'.nextId) && |x.message.corr| <= s.nextId && |x.orderId| <= s.nextId
    {
      assert RunOk(x, s.log, b, s.inventories, s.nextId);
      RunKept(x, s.log, b, s.inventories, s.nextId, [], b, s'.inventories, s'.nextId);
    }
  }

  // ---- The end of a public command ----

  lemma RemoveAtMembers<T>(s: seq<T>, i: nat)
    requires i < |s|
    ensures forall x :: x in RemoveAt(s, i) ==> x in s
    ensures forall j :: 0 <= j < |RemoveAt(s, i)| ==> RemoveAt(s, i)[j] == if j < i then s[j] else s[j + 1]
  {
  }

  lemma RunsAfterFinish(s: System, b: Book, i: nat, es: seq<Event>, b': Book, nextId': nat)
    requires RunsOk(s.runs, s.log, b, s.inventories, s.nextId) && i < |s.runs| && s.nextId <= nextId'
    requires forall e :: e in es ==> e.corr == s.runs[i].message.corr || e.corr == UNSET
    requires forall c :: c in b' ==> c in b || c == s.runs[i].message.corr
    requires forall c :: c in b' ==> b'[c].order.id == if c in b then b[c].order.id else s.runs[i].orderId
    ensures RunsOk(RemoveAt(s.runs, i), s.log + es, b', s.inventories, nextId')
  {
    RemoveAtMembers(s.runs, i);
    var left := RemoveAt(s.runs, i);
    forall x | x in left
      ensures RunOk(x, s.log + es, b', s.inventories, nextId')
    {
      var j :| 0 <= j < |left| && left[j] == x;
      var k := if j < i then j else j + 1;
      assert s.runs[k] == x && x in s.runs && s.runs[i] in s.runs;
      assert RunOk(x, s.log, b, s.inventories, s.nextId);
      assert x.message.corr != s.runs[i].message.corr && x.orderId != s.runs[i].orderId;
      RunKept(x, s.log, b, s.inventories, s.nextId, es, b', s.inventories, nextId');
    }
  }

  lemma BookGrows(b: Book, inventories: set<Id>, nextId: nat, nextId': nat)
    requires BookOk(b, inventories, nextId) && nextId <= nextId'
    ensures BookOk(b, inventories, nextId')
  {
    forall c | c in b
      ensures EntryOk(c, b[c], inventories, nextId')
    {
      assert EntryOk(c, b[c], inventories, nextId);
    }
  }

  lemma WorkerSeesOrdinary(s: System, b: Book, es: seq<Event>)
    requires WorkerOk(s.worker, s.log) && WorkOk(Work(s), b) && Ordinary(es, b)
    ensures WorkerOk(s.worker, s.log + es)
  {
    if s.worker.Some? && s.worker.value.message.command.RollbackAccount? {
      var m := s.worker.value.message;
      assert m in Work(s) && MessageOk(m, b);
      PartsOfOthers(s.log, es, m.command.correlationId);
    }
  }

  /** What a run that commits no order may append. */
  ghost predicate OutcomeOk(es: seq<Event>, r: Run, inventories: set<Id>, nextId: nat) {
    forall e :: e in es ==>
      && (e.corr == r.message.corr || e.corr == UNSET)
      && |e.stream| <= nextId && |e.corr| <= nextId
      && !OrderBody(e.body)
      && (InventoryBody(e.body) <==> e.stream in inventories)
  }

  lemma OrdinaryOutcome(s: System, b: Book, i: nat, nameTaken: bool)
    requires RunsOk(s.runs, s.log, b, s.inventories, s.nextId) && i < |s.runs|
    requires !(s.runs[i].message.command.CreateOrder? && Decide(s.runs[i], nameTaken, s.nextId).Commit?)
    ensures OutcomeOk(Outcome(Decide(s.runs[i], nameTaken, s.nextId)), s.runs[i], s.inventories, s.nextId)
  {
    assert RunOk(s.runs[i], s.log, b, s.inventories, s.nextId);
    OrdinaryDecision(s.runs[i], nameTaken, s.nextId);
  }

  lemma UnsetIsNoOrder(b: Book, inventories: set<Id>, nextId: nat)
    requires BookOk(b, inventories, nextId)
    ensures UNSET !in b
  {
    assert UNSET in b ==> EntryOk(UNSET, b[UNSET], inventories, nextId);
  }

  function AfterRun(s: System, i: nat, es: seq<Event>): System
    requires i < |s.runs|
  {
    s.(runs := RemoveAt(s.runs, i), log := s.log + es, events := s.events + es, nextId := s.nextId + |es|)
  }

  /** The part of `OutcomeOk` that each part of the invariant needs. */
  lemma OutcomeIsOrdinary(s: System, b: Book, i: nat, es: seq<Event>)
    requires BookOk(b, s.inventories, s.nextId) && RunsOk(s.runs, s.log, b, s.inventories, s.nextId) && i < |s.runs|
    requires OutcomeOk(es, s.runs[i], s.inventories, s.nextId)
    ensures Ordinary(es, b)
  {
    assert RunOk(s.runs[i], s.log, b, s.inventories, s.nextId);
    UnsetIsNoOrder(b, s.inventories, s.nextId);
  }

  lemma OutcomeKeepsStreams(s: System, r: Run, es: seq<Event>)
    requires StreamsOk(s.log, s.inventories, s.nextId) && OutcomeOk(es, r, s.inventories, s.nextId)
    ensures StreamsOk(s.log + es, s.inventories, s.nextId + |es|)
  {
    StreamsAppend(s.log, s.inventories, s.nextId, es, s.nextId + |es|);
  }

  lemma OutcomeKeepsRuns(s: System, b: Book, i: nat, es: seq<Event>)
    requires RunsOk(s.runs, s.log, b, s.inventories, s.nextId) && i < |s.runs|
    requires OutcomeOk(es, s.runs[i], s.inventories, s.nextId)
    ensures RunsOk(RemoveAt(s.runs, i), s.log + es, b, s.inventories, s.nextId + |es|)
  {
    RunsAfterFinish(s, b, i, es, b, s.nextId + |es|);
  }

  lemma OrdinaryKeepsOwed(work: multiset<Message>, log: seq<Event>, b: Book, es: seq<Event>)
    requires CompensationOwed(work, log, b) && Ordinary(es, b)
    ensures CompensationOwed(work, log + es, b)
  {
    forall c | c in b
      ensures RolledBack(log + es, c) == RolledBack(log, c)
    {
      PartsOfOthers(log, es, c);
    }
  }

  lemma OrdinaryKeepsDueOf(s: System, b: Book, i: nat, es: seq<Event>)
    requires DueOk(Due(s), s.log, b) && BookOk(b, s.inventories, s.nextId) && Ordinary(es, b) && i < |s.runs|
    ensures DueOk(Due(AfterRun(s, i, es)), s.log + es, b)
  {
    OrdinaryKeepsDue(Due(s), s.log, b, s.inventories, s.nextId, es);
    assert Due(AfterRun(s, i, es)) == Due(s) + multiset(es);
  }

  lemma OrdinaryKeepsInv(s: System, b: Book, i: nat, es: seq<Event>)
    requires Inv(s, b) && i < |s.runs| && OutcomeOk(es, s.runs[i], s.inventories, s.nextId)
    ensures Inv(AfterRun(s, i, es), b)
  {
    hide BookOk, LogOk, StreamsOk, RunsOk, DueOk, WorkOk, CompensationOwed, RegistryOk, WorkerOk, OutcomeOk, Ordinary;
    var s' := AfterRun(s, i, es);
    OutcomeIsOrdinary(s, b, i, es);
    BookGrows(b, s.inventories, s.nextId, s'.nextId);
    OrdinaryKeepsLog(s.log, b, es);
    OutcomeKeepsStreams(s, s.runs[i], es);
    OutcomeKeepsRuns(s, b, i, es);
    OrdinaryKeepsDueOf(s, b, i, es);
    assert Work(s') == Work(s);
    OrdinaryKeepsOwed(Work(s), s.log, b, es);
    WorkerSeesOrdinary(s, b, es);
  }

  /** Where nothing is registered, the end of a run only appends what it decided. */
  lemma FinishStep(s: System, i: nat, nameTaken: bool)
    requires i < |s.runs| && Sagas.RollbackMessages(s.sets, s.runs[i].message.corr) == []
    ensures Step(s, Finish(i, nameTaken)) == AfterRun(s, i, Outcome(Decide(s.runs[i], nameTaken, s.nextId)))
  {
    hide Decide, Sagas.RollbackMessages;
    assert s.commands + [] == s.commands;
  }

  /** Every end of a public command except a committed order. */
  lemma FinishOrdinaryKeepsInv(s: System, b: Book, i: nat, nameTaken: bool, s': System)
    requires i < |s.runs| && s' == Step(s, Finish(i, nameTaken))
    requires !(s.runs[i].message.command.CreateOrder? && Decide(s.runs[i], nameTaken, s.nextId).Commit?)
    requires Inv(s, b)
    ensures Inv(s', b)
  {
    hide *;
    FinishOutcome(s, b, i, nameTaken);
    FinishStep(s, i, nameTaken);
    OrdinaryKeepsInv(s, b, i, Outcome(Decide(s.runs[i], nameTaken, s.nextId)));
  }

  lemma FinishOutcome(s: System, b: Book, i: nat, nameTaken: bool)
    requires Inv(s, b) && i < |s.runs|
    requires !(s.runs[i].message.command.CreateOrder? && Decide(s.runs[i], nameTaken, s.nextId).Commit?)
    ensures Sagas.RollbackMessages(s.sets, s.runs[i].message.corr) == []
    ensures OutcomeOk(Outcome(Decide(s.runs[i], nameTaken, s.nextId)), s.runs[i], s.inventories, s.nextId)
  {
    hide BookOk, LogOk, StreamsOk, RunsOk, DueOk, WorkOk, CompensationOwed, RegistryOk, WorkerOk, Decide, OutcomeOk;
    OrdinaryOutcome(s, b, i, nameTaken);
    NoRollbackForUnused(s, b, i);
  }

  lemma NoRollbackForUnused(s: System, b: Book, i: nat)
    requires RunsOk(s.runs, s.log, b, s.inventories, s.nextId) && RegistryOk(s.sets, b) && i < |s.runs|
    ensures Sagas.RollbackMessages(s.sets, s.runs[i].message.corr) == []
  {
    assert RunOk(s.runs[i], s.log, b, s.inventories, s.nextId);
    RegistryOfOthers(s.sets, b, s.runs[i].message.corr);
  }

  // ---- A committed order ----

  /** An entry for an order that nothing mentions yet. */
  ghost predicate Unmentioned(log: seq<Event>, b: Book, c: Id, e: Entry) {
    && c !in b && (forall x :: x in log ==> x.corr != c)
    && (forall d :: d in b ==> b[d].order.id != e.order.id)
    && e.phase.Placed? && !e.late
  }

  lemma OrderKeepsLog(log: seq<Event>, b: Book, c: Id, e: Entry, inventories: set<Id>, nextId: nat)
    requires LogOk(log, b) && Unmentioned(log, b, c, e) && EntryOk(c, e, inventories, nextId)
    ensures LogOk(log + [e.placed, e.paid], b[c := e])
  {
    hide AccountPart, RemovalPart;
    var es, b' := [e.placed, e.paid], b[c := e];
    PartsAppend(log, es, c);
    PartsOfUnused(log, c);
    PartsOfPair(e.placed, e.paid, c);
    forall d | d in b
      ensures AccountSide(log + es, d, b'[d]) && RemovalSide(log + es, d, b'[d])
    {
      assert d != c;
      PartsOfOthers(log, es, d);
    }
  }

  lemma OrderKeepsBook(log: seq<Event>, b: Book, c: Id, e: Entry, inventories: set<Id>, nextId: nat)
    requires BookOk(b, inventories, nextId) && Unmentioned(log, b, c, e) && EntryOk(c, e, inventories, nextId)
    ensures BookOk(b[c := e], inventories, nextId)
  {
  }

  lemma OrderKeepsDue(due: multiset<Event>, log: seq<Event>, b: Book, c: Id, e: Entry, inventories: set<Id>, nextId: nat)
    requires DueOk(due, log, b) && BookOk(b, inventories, nextId)
    requires Unmentioned(log, b, c, e) && EntryOk(c, e, inventories, nextId)
    ensures DueOk(due + multiset([e.placed, e.paid]), log + [e.placed, e.paid], b[c := e])
  {
    var es, b' := [e.placed, e.paid], b[c := e];
    assert e.placed !in due && e.placed != e.paid;
    assert multiset(es) == multiset{e.placed, e.paid};
    forall d | d in b
      ensures (due + multiset(es))[b'[d].placed] == due[b[d].placed]
    {
      assert EntryOk(d, b[d], inventories, nextId);
    }
  }

  lemma OrderKeepsWork(work: multiset<Message>, log: seq<Event>, b: Book, c: Id, e: Entry)
    requires WorkOk(work, b) && Unmentioned(log, b, c, e)
    ensures WorkOk(work, b[c := e])
  {
    forall m | m in work
      ensures MessageOk(m, b[c := e]) && m != RemoveMessage(c, e.order)
    {
      assert MessageOk(m, b);
    }
  }

  lemma OrderKeepsOwed(work: multiset<Message>, log: seq<Event>, b: Book, c: Id, e: Entry, inventories: set<Id>, nextId: nat)
    requires CompensationOwed(work, log, b) && WorkOk(work, b)
    requires Unmentioned(log, b, c, e) && EntryOk(c, e, inventories, nextId)
    ensures CompensationOwed(work, log + [e.placed, e.paid], b[c := e])
  {
    var es, b' := [e.placed, e.paid], b[c := e];
    PartsAppend(log, es, c);
    PartsOfUnused(log, c);
    PartsOfPair(e.placed, e.paid, c);
    assert !RollbackPending(work, c, e.order) by {
      assert forall m :: m in work ==> MessageOk(m, b);
    }
    forall d | d in b
      ensures RolledBack(log + es, d) == RolledBack(log, d)
    {
      PartsOfOthers(log, es, d);
    }
  }

  lemma OrderKeepsRegistry(sets: Caches.Sets, log: seq<Event>, b: Book, c: Id, e: Entry)
    requires RegistryOk(sets, b) && Unmentioned(log, b, c, e)
    ensures RegistryOk(sets, b[c := e])
  {
  }

  /** The worker concerns an order of the book, and no other order's events reach its snapshot. */
  lemma WorkerSeesOthers(s: System, b: Book, c: Id, es: seq<Event>)
    requires WorkerOk(s.worker, s.log) && WorkOk(Work(s), b) && forall x :: x in es ==> x.corr == c
    requires s.worker.Some? && s.worker.value.message.command.RollbackAccount? ==>
               s.worker.value.message.command.correlationId != c
    ensures WorkerOk(s.worker, s.log + es)
  {
    if s.worker.Some? && s.worker.value.message.command.RollbackAccount? {
      PartsOfOthers(s.log, es, s.worker.value.message.command.correlationId);
    }
  }

  lemma WorkerConcernsBook(s: System, b: Book)
    requires WorkOk(Work(s), b) && s.worker.Some? && s.worker.value.message.command.RollbackAccount?
    ensures s.worker.value.message.command.correlationId in b
  {
    assert s.worker.value.message in Work(s);
    assert MessageOk(s.worker.value.message, b);
  }

  /** The entry of a run that commits its order. */
  lemma OrderOutcome(s: System, b: Book, i: nat, nameTaken: bool, es: seq<Event>)
    requires i < |s.runs| && s.runs[i].message.command.CreateOrder?
    requires Decide(s.runs[i], nameTaken, s.nextId) == Commit(es)
    requires BookOk(b, s.inventories, s.nextId) && RunsOk(s.runs, s.log, b, s.inventories, s.nextId)
    ensures |es| == 2 && es[0].body.OrderCreated? && es[0].body.order.id == s.runs[i].orderId
    ensures var c, e := s.runs[i].message.corr, Entry(es[0].body.order, es[0], es[1], Placed, false);
            && EntryOk(c, e, s.inventories, s.nextId)
            && Unmentioned(s.log, b, c, e)
  {
    OrderDecision(s.runs[i], nameTaken, s.nextId);
    assert RunOk(s.runs[i], s.log, b, s.inventories, s.nextId);
  }

  lemma OrderKeepsStreams(log: seq<Event>, c: Id, e: Entry, inventories: set<Id>, nextId: nat)
    requires StreamsOk(log, inventories, nextId) && EntryOk(c, e, inventories, nextId)
    ensures StreamsOk(log + [e.placed, e.paid], inventories, nextId + 2)
  {
    StreamsAppend(log, inventories, nextId, [e.placed, e.paid], nextId + 2);
  }

  lemma OrderKeepsRuns(s: System, b: Book, i: nat, e: Entry)
    requires RunsOk(s.runs, s.log, b, s.inventories, s.nextId) && i < |s.runs|
    requires EntryOk(s.runs[i].message.corr, e, s.inventories, s.nextId) && e.order.id == s.runs[i].orderId
    ensures RunsOk(RemoveAt(s.runs, i), s.log + [e.placed, e.paid], b[s.runs[i].message.corr := e], s.inventories, s.nextId + 2)
  {
    assert RunOk(s.runs[i], s.log, b, s.inventories, s.nextId);
    RunsAfterFinish(s, b, i, [e.placed, e.paid], b[s.runs[i].message.corr := e], s.nextId + 2);
  }

  lemma OrderKeepsWorker(s: System, b: Book, c: Id, e: Entry)
    requires WorkerOk(s.worker, s.log) && WorkOk(Work(s), b) && c !in b && e.placed.corr == e.paid.corr == c
    ensures WorkerOk(s.worker, s.log + [e.placed, e.paid])
  {
    if s.worker.Some? && s.worker.value.message.command.RollbackAccount? {
      WorkerConcernsBook(s, b);
    }
    WorkerSeesOthers(s, b, c, [e.placed, e.paid]);
  }

  lemma OrderKeepsInv(s: System, b: Book, i: nat, c: Id, e: Entry)
    requires i < |s.runs| && c == s.runs[i].message.corr && e.order.id == s.runs[i].orderId
    requires e.placed.corr == e.paid.corr == c && !e.phase.Issued?
    requires EntryOk(c, e, s.inventories, s.nextId) && Unmentioned(s.log, b, c, e)
    requires c !in b
    requires Inv(s, b)
    ensures Inv(AfterRun(s, i, [e.placed, e.paid]), b[c := e])
  {
    hide BookOk, LogOk, StreamsOk, RunsOk, DueOk, WorkOk, CompensationOwed, RegistryOk, WorkerOk, Unmentioned, EntryOk;
    var es := [e.placed, e.paid];
    var s' := AfterRun(s, i, es);
    OrderKeepsBook(s.log, b, c, e, s.inventories, s.nextId);
    BookGrows(b[c := e], s.inventories, s.nextId, s'.nextId);
    OrderKeepsLog(s.log, b, c, e, s.inventories, s.nextId);
    OrderKeepsStreams(s.log, c, e, s.inventories, s.nextId);
    OrderKeepsRuns(s, b, i, e);
    OrderKeepsDue(Due(s), s.log, b, c, e, s.inventories, s.nextId);
    assert Due(s') == Due(s) + multiset(es);
    assert Work(s') == Work(s);
    OrderKeepsWork(Work(s), s.log, b, c, e);
    OrderKeepsOwed(Work(s), s.log, b, c, e, s.inventories, s.nextId);
    OrderKeepsRegistry(s.sets, s.log, b, c, e);
    OrderKeepsWorker(s, b, c, e);
  }

  lemma FinishOrderKeepsInv(s: System, b: Book, i: nat, nameTaken: bool, s': System, b': Book)
    requires i < |s.runs| && s' == Step(s, Finish(i, nameTaken)) && b' == Track(s, b, Finish(i, nameTaken))
    requires s.runs[i].message.command.CreateOrder? && Decide(s.runs[i], nameTaken, s.nextId).Commit?
    requires Inv(s, b)
    ensures Inv(s', b')
  {
    hide BookOk, LogOk, StreamsOk, RunsOk, DueOk, WorkOk, CompensationOwed, RegistryOk, WorkerOk, Unmentioned, EntryOk, Decide, Step;
    var es := Decide(s.runs[i], nameTaken, s.nextId).events;
    OrderOutcome(s, b, i, nameTaken, es);
    var c, e := s.runs[i].message.corr, Entry(es[0].body.order, es[0], es[1], Placed, false);
    assert es == [e.placed, e.paid];
    NoRollbackForUnused(s, b, i);
    FinishStep(s, i, nameTaken);
    EntryCorr(c, e, s);
    UnmentionedIsNew(s, b, c, e);
    OrderKeepsInv(s, b, i, c, e);
  }

  lemma EntryCorr(c: Id, e: Entry, s: System)
    requires EntryOk(c, e, s.inventories, s.nextId)
    ensures e.placed.corr == e.paid.corr == c
  {
  }

  lemma UnmentionedIsNew(s: System, b: Book, c: Id, e: Entry)
    requires Unmentioned(s.log, b, c, e)
    ensures c !in b
  {
  }

  // ---- The command worker ----

  lemma TakeKeepsWork(s: System, i: nat)
    requires Enabled(s, TakeCommand(i))
    ensures Work(Step(s, TakeCommand(i))) == Work(s)
  {
    RemoveAtMultiset(s.commands, i);
  }

  lemma AccountPartMembers(log: seq<Event>, b: Book, inventories: set<Id>, nextId: nat, c: Id, e: Event)
    requires LogOk(log, b) && BookOk(b, inventories, nextId) && StreamsOk(log, inventories, nextId) && c in b && e in log
    ensures InAccountPart(e, c) <==> e.stream == b[c].order.accountId && e.corr == c
  {
    hide AccountPart, StreamsOk;
    assert EntryOk(c, b[c], inventories, nextId);
    assert AccountSide(log, c, b[c]);
    StreamOfBody(log, inventories, nextId, e);
    if InAccountPart(e, c) {
      InPart(log, c, e);
    }
  }

  lemma InPart(log: seq<Event>, c: Id, e: Event)
    requires e in log && InAccountPart(e, c)
    ensures e in AccountPart(log, c)
  {
    FilterMembers(log, (x: Event) => InAccountPart(x, c));
  }

  lemma StreamOfBody(log: seq<Event>, inventories: set<Id>, nextId: nat, e: Event)
    requires StreamsOk(log, inventories, nextId) && e in log
    ensures InventoryBody(e.body) <==> e.stream in inventories
  {
  }

  /** What a rollback finds of its order on the account stream is all there is. */
  lemma AccountPartIsOnStream(log: seq<Event>, b: Book, inventories: set<Id>, nextId: nat, c: Id)
    requires LogOk(log, b) && BookOk(b, inventories, nextId) && StreamsOk(log, inventories, nextId) && c in b
    ensures OfCorrelation(OfStream(log, b[c].order.accountId), c) == AccountPart(log, c)
  {
    hide LogOk, BookOk, StreamsOk, InAccountPart;
    var a := b[c].order.accountId;
    forall e | e in log
      ensures InAccountPart(e, c) <==> e.stream == a && e.corr == c
    {
      AccountPartMembers(log, b, inventories, nextId, c, e);
    }
    FilterTwice(log, (e: Event) => e.stream == a, (e: Event) => e.corr == c, (e: Event) => InAccountPart(e, c));
  }

  lemma TakeMakesWorkerOk(s: System, b: Book, i: nat)
    requires i < |s.commands| && WorkOk(Work(s), b)
    requires LogOk(s.log, b) && BookOk(b, s.inventories, s.nextId) && StreamsOk(s.log, s.inventories, s.nextId)
    ensures WorkerOk(Some(Start(s, s.commands[i], UNSET, UNSET)), s.log)
  {
    var m := s.commands[i];
    assert m in Work(s) && MessageOk(m, b);
    if m.command.RollbackAccount? {
      var c := m.command.correlationId;
      assert EntryOk(c, b[c], s.inventories, s.nextId);
      AccountPartIsOnStream(s.log, b, s.inventories, s.nextId, c);
    }
  }

  lemma TakeCommandKeepsInv(s: System, b: Book, i: nat)
    requires Enabled(s, TakeCommand(i))
    requires Inv(s, b)
    ensures Inv(Step(s, TakeCommand(i)), b)
  {
    hide BookOk, LogOk, StreamsOk, RunsOk, DueOk, WorkOk, CompensationOwed, RegistryOk, WorkerOk, Start;
    TakeKeepsWork(s, i);
    TakeMakesWorkerOk(s, b, i);
    assert Due(Step(s, TakeCommand(i))) == Due(s);
  }

  function AfterWorker(s: System, es: seq<Event>, ms: seq<Message>): System {
    s.(worker := None, log := s.log + es, events := s.events + es, nextId := s.nextId + |es|, commands := s.commands + ms)
  }

  /** The same order, further along. */
  ghost predicate Advanced(e: Entry, e': Entry) {
    e'.order == e.order && e'.placed == e.placed && e'.paid == e.paid && (e'.late ==> Registered(e'.phase))
  }

  lemma AdvanceKeepsBook(b: Book, c: Id, e': Entry, inventories: set<Id>, nextId: nat, nextId': nat)
    requires BookOk(b, inventories, nextId) && c in b && Advanced(b[c], e') && nextId <= nextId'
    ensures BookOk(b[c := e'], inventories, nextId')
  {
    forall d | d in b
      ensures EntryOk(d, b[c := e'][d], inventories, nextId')
    {
      assert EntryOk(d, b[d], inventories, nextId);
    }
  }

  /** Events of orders in the book do not concern the runs from outside. */
  lemma AdvanceKeepsRuns(s: System, b: Book, c: Id, e': Entry, es: seq<Event>)
    requires RunsOk(s.runs, s.log, b, s.inventories, s.nextId) && c in b && Advanced(b[c], e')
    requires forall x :: x in es ==> x.corr == c
    ensures RunsOk(s.runs, s.log + es, b[c := e'], s.inventories, s.nextId + |es|)
  {
    forall r | r in s.runs
      ensures RunOk(r, s.log + es, b[c := e'], s.inventories, s.nextId + |es|)
    {
      assert RunOk(r, s.log, b, s.inventories, s.nextId);
      RunKept(r, s.log, b, s.inventories, s.nextId, es, b[c := e'], s.inventories, s.nextId + |es|);
    }
  }

  /** An order keeps its place in the delivery queue unless it is being placed. */
  lemma AdvanceKeepsDue(due: multiset<Event>, log: seq<Event>, b: Book, c: Id, e': Entry, inventories: set<Id>, nextId: nat, es: seq<Event>)
    requires DueOk(due, log, b) && BookOk(b, inventories, nextId) && c in b && Advanced(b[c], e')
    requires b[c].phase.Placed? <==> e'.phase.Placed?
    requires forall e :: e in es ==> !e.body.OrderCreated?
    ensures DueOk(due + multiset(es), log + es, b[c := e'])
  {
    OrdinaryKeepsDue(due, log, b, inventories, nextId, es);
  }

  lemma AdvanceKeepsRegistry(sets: Caches.Sets, b: Book, c: Id, e': Entry)
    requires RegistryOk(sets, b) && c in b && Advanced(b[c], e') && (Registered(b[c].phase) <==> Registered(e'.phase))
    ensures RegistryOk(sets, b[c := e'])
  {
  }

  // ---- The end of RemoveInventory ----

  lemma IssuedIfPending(work: multiset<Message>, b: Book, m: Message)
    requires WorkOk(work, b) && m in work && m.command.RemoveInventory?
    ensures m.corr in b && m == RemoveMessage(m.corr, b[m.corr].order) && b[m.corr].phase.Issued? && work[m] == 1
  {
    assert MessageOk(m, b);
  }

  lemma RemovalEndsWork(work: multiset<Message>, b: Book, c: Id, phase: Phase)
    requires WorkOk(work, b) && c in b && b[c].phase.Issued? && (phase.Removed? || phase.Failed?)
    ensures WorkOk(work - multiset{RemoveMessage(c, b[c].order)}, b[c := b[c].(phase := phase)])
  {
    var m, b' := RemoveMessage(c, b[c].order), b[c := b[c].(phase := phase)];
    forall x | x in work - multiset{m}
      ensures MessageOk(x, b')
    {
      assert x in work && MessageOk(x, b);
    }
  }

  lemma RemovalKeepsLog(log: seq<Event>, b: Book, c: Id, e: Event)
    requires LogOk(log, b) && c in b && b[c].phase.Issued?
    requires e.corr == c && e.stream == b[c].order.inventoryId && e.body == InventoryRemoved(b[c].order.quantity)
    ensures LogOk(log + [e], b[c := b[c].(phase := Removed)])
    ensures forall d :: d in b ==> AccountPart(log + [e], d) == AccountPart(log, d)
  {
    hide AccountPart, RemovalPart;
    var b' := b[c := b[c].(phase := Removed)];
    PartsAppend(log, [e], c);
    PartsOfRemoval(e, c);
    assert RemovalSide(log, c, b[c]);
    forall d | d in b
      ensures AccountPart(log + [e], d) == AccountPart(log, d)
      ensures d != c ==> RemovalPart(log + [e], d) == RemovalPart(log, d)
    {
      if d != c {
        PartsOfOthers(log, [e], d);
      }
    }
  }

  lemma FailureKeepsLog(log: seq<Event>, b: Book, c: Id)
    requires LogOk(log, b) && c in b && b[c].phase.Issued?
    ensures LogOk(log, b[c := b[c].(phase := Failed)])
  {
    assert RemovalSide(log, c, b[c]);
  }

  lemma RemovalKeepsOwed(work: multiset<Message>, log: seq<Event>, b: Book, c: Id, log': seq<Event>)
    requires CompensationOwed(work, log, b) && c in b && b[c].phase.Issued?
    requires forall d :: d in b ==> AccountPart(log', d) == AccountPart(log, d)
    ensures CompensationOwed(work - multiset{RemoveMessage(c, b[c].order)}, log', b[c := b[c].(phase := Removed)])
  {
    var m, b' := RemoveMessage(c, b[c].order), b[c := b[c].(phase := Removed)];
    forall d | d in b
      ensures RollbackPending(work - multiset{m}, d, b[d].order) <==> RollbackPending(work, d, b[d].order)
    {
    }
  }

  lemma FailureKeepsOwed(work: multiset<Message>, log: seq<Event>, b: Book, c: Id)
    requires CompensationOwed(work, log, b) && c in b && b[c].phase.Issued?
    ensures CompensationOwed(work - multiset{RemoveMessage(c, b[c].order)} + multiset{RollbackMessage(c, b[c].order, UNSET)},
                             log, b[c := b[c].(phase := Failed)])
  {
    var m, n, b' := RemoveMessage(c, b[c].order), RollbackMessage(c, b[c].order, UNSET), b[c := b[c].(phase := Failed)];
    var work' := work - multiset{m} + multiset{n};
    forall d | d in b
      ensures d != c ==> (RollbackPending(work', d, b[d].order) <==> RollbackPending(work, d, b[d].order))
      ensures d == c ==> RollbackPending(work', d, b[d].order)
    {
    }
  }

  lemma RollbackJoinsWork(work: multiset<Message>, b: Book, c: Id, corr: Id)
    requires WorkOk(work, b) && c in b && Registered(b[c].phase) && (corr == UNSET || corr == c)
    ensures WorkOk(work + multiset{RollbackMessage(c, b[c].order, corr)}, b)
  {
    var n := RollbackMessage(c, b[c].order, corr);
    assert forall d :: d in b ==> RemoveMessage(d, b[d].order) != n;
  }

  /** What the end of a worker run does to the pending messages. */
  lemma AfterWorkerPending(s: System, es: seq<Event>, ms: seq<Message>)
    requires s.worker.Some?
    ensures Due(AfterWorker(s, es, ms)) == Due(s) + multiset(es)
    ensures Work(AfterWorker(s, es, ms)) == Work(s) - multiset{s.worker.value.message} + multiset(ms)
  {
  }

  lemma NoWorkerOk(log: seq<Event>)
    ensures WorkerOk(None, log)
  {
  }

  lemma RemovalKeepsStore(s: System, b: Book, c: Id, e: Event)
    requires c in b && b[c].phase.Issued?
    requires e.corr == c && e.stream == b[c].order.inventoryId && e.body == InventoryRemoved(b[c].order.quantity)
    requires BookOk(b, s.inventories, s.nextId) && LogOk(s.log, b) && StreamsOk(s.log, s.inventories, s.nextId)
    requires RunsOk(s.runs, s.log, b, s.inventories, s.nextId)
    ensures var s', b' := AfterWorker(s, [e], []), b[c := b[c].(phase := Removed)];
            && BookOk(b', s'.inventories, s'.nextId) && LogOk(s'.log, b') && StreamsOk(s'.log, s'.inventories, s'.nextId)
            && RunsOk(s'.runs, s'.log, b', s'.inventories, s'.nextId)
            && forall d :: d in b ==> AccountPart(s'.log, d) == AccountPart(s.log, d)
  {
    hide BookOk, LogOk, RunsOk, StreamsOk;
    AdvanceKeepsBook(b, c, b[c].(phase := Removed), s.inventories, s.nextId, s.nextId + 1);
    RemovalKeepsLog(s.log, b, c, e);
    RemovalKeepsStreams(s.log, b, s.inventories, s.nextId, c, e);
    AdvanceKeepsRuns(s, b, c, b[c].(phase := Removed), [e]);
  }

  lemma RemovalKeepsStreams(log: seq<Event>, b: Book, inventories: set<Id>, nextId: nat, c: Id, e: Event)
    requires BookOk(b, inventories, nextId) && StreamsOk(log, inventories, nextId) && c in b
    requires e.corr == c && e.stream == b[c].order.inventoryId && e.body == InventoryRemoved(b[c].order.quantity)
    ensures StreamsOk(log + [e], inventories, nextId + 1)
  {
    assert EntryOk(c, b[c], inventories, nextId);
    StreamsAppend(log, inventories, nextId, [e], nextId + 1);
  }

  /** Committed: the inventory event is appended. */
  lemma RemovalKeepsInv(s: System, b: Book, c: Id, e: Event)
    requires s.worker.Some? && c in b && b[c].phase.Issued?
    requires s.worker.value.message == RemoveMessage(c, b[c].order)
    requires e.corr == c && e.stream == b[c].order.inventoryId && e.body == InventoryRemoved(b[c].order.quantity)
    requires Inv(s, b)
    ensures Inv(AfterWorker(s, [e], []), b[c := b[c].(phase := Removed)])
  {
    hide BookOk, LogOk, StreamsOk, RunsOk, DueOk, WorkOk, CompensationOwed, RegistryOk, WorkerOk, Due, Work;
    var log', m := s.log + [e], s.worker.value.message;
    RemovalKeepsStore(s, b, c, e);
    AfterWorkerPending(s, [e], []);
    assert Work(s) - multiset{m} + multiset([]) == Work(s) - multiset{m};
    AdvanceKeepsDue(Due(s), s.log, b, c, b[c].(phase := Removed), s.inventories, s.nextId, [e]);
    RemovalEndsWork(Work(s), b, c, Removed);
    RemovalKeepsOwed(Work(s), s.log, b, c, log');
    AdvanceKeepsRegistry(s.sets, b, c, b[c].(phase := Removed));
    NoWorkerOk(log');
  }

  lemma FailureKeepsStore(s: System, b: Book, c: Id)
    requires c in b && b[c].phase.Issued?
    requires BookOk(b, s.inventories, s.nextId) && LogOk(s.log, b)
    requires RunsOk(s.runs, s.log, b, s.inventories, s.nextId)
    ensures var b' := b[c := b[c].(phase := Failed)];
            && BookOk(b', s.inventories, s.nextId) && LogOk(s.log, b')
            && RunsOk(s.runs, s.log, b', s.inventories, s.nextId)
  {
    hide BookOk, LogOk, RunsOk;
    assert s.log + [] == s.log;
    AdvanceKeepsBook(b, c, b[c].(phase := Failed), s.inventories, s.nextId, s.nextId);
    FailureKeepsLog(s.log, b, c);
    AdvanceKeepsRuns(s, b, c, b[c].(phase := Failed), []);
  }

  /** Thrown: CommandBus publishes the registered rollback. */
  lemma FailureKeepsInv(s: System, b: Book, c: Id)
    requires s.worker.Some? && c in b && b[c].phase.Issued?
    requires s.worker.value.message == RemoveMessage(c, b[c].order)
    requires Inv(s, b)
    ensures Inv(AfterWorker(s, [], [RollbackMessage(c, b[c].order, UNSET)]), b[c := b[c].(phase := Failed)])
  {
    hide BookOk, LogOk, StreamsOk, RunsOk, DueOk, WorkOk, CompensationOwed, RegistryOk, WorkerOk, Due, Work;
    var n, m := RollbackMessage(c, b[c].order, UNSET), s.worker.value.message;
    assert s.log + [] == s.log && s.events + [] == s.events;
    FailureKeepsStore(s, b, c);
    AfterWorkerPending(s, [], [n]);
    AdvanceKeepsDue(Due(s), s.log, b, c, b[c].(phase := Failed), s.inventories, s.nextId, []);
    RemovalEndsWork(Work(s), b, c, Failed);
    RollbackJoinsWork(Work(s) - multiset{m}, b[c := b[c].(phase := Failed)], c, UNSET);
    FailureKeepsOwed(Work(s), s.log, b, c);
    AdvanceKeepsRegistry(s.sets, b, c, b[c].(phase := Failed));
    NoWorkerOk(s.log);
  }

  // ---- The end of RollbackAccount ----

  lemma RollbackEndsWork(work: multiset<Message>, b: Book, m: Message)
    requires WorkOk(work, b) && m.command.RollbackAccount?
    ensures WorkOk(work - multiset{m}, b)
  {
  }

  lemma PartsOfUndo(log: seq<Event>, c: Id, e: Event, e': Event)
    requires InAccountPart(e, c) && InAccountPart(e', c)
    ensures AccountPart(log + [e, e'], c) == AccountPart(log, c) + [e, e']
    ensures RemovalPart(log + [e, e'], c) == RemovalPart(log, c)
  {
    PartsAppend(log, [e, e'], c);
    PartsOfPair(e, e', c);
  }

  lemma UndoKeepsLog(log: seq<Event>, b: Book, c: Id, e: Event, e': Event)
    requires LogOk(log, b) && c in b && IsUndo(c, b[c].order, e, e') && !RolledBack(log, c)
    ensures LogOk(log + [e, e'], b) && RolledBack(log + [e, e'], c)
    ensures forall d :: d in b && d != c ==> AccountPart(log + [e, e'], d) == AccountPart(log, d)
  {
    PartsOfUndo(log, c, e, e');
    assert AccountSide(log, c, b[c]);
    forall d | d in b && d != c
      ensures AccountPart(log + [e, e'], d) == AccountPart(log, d) && RemovalPart(log + [e, e'], d) == RemovalPart(log, d)
    {
      PartsOfOthers(log, [e, e'], d);
    }
  }

  lemma UndoKeepsOwed(work: multiset<Message>, log: seq<Event>, b: Book, c: Id, m: Message, log': seq<Event>)
    requires CompensationOwed(work, log, b) && c in b && m in work
    requires m.command == RollbackAccount(b[c].order.accountId, c) && (m.corr == UNSET || m.corr == c)
    requires RolledBack(log', c)
    requires forall d :: d in b && d != c ==> AccountPart(log', d) == AccountPart(log, d)
    ensures CompensationOwed(work - multiset{m}, log', b)
  {
    assert RollbackPending(work, c, b[c].order);
    forall d | d in b && d != c
      ensures RollbackPending(work - multiset{m}, d, b[d].order) <==> RollbackPending(work, d, b[d].order)
      ensures RolledBack(log', d) <==> RolledBack(log, d)
    {
    }
  }

  /** The account replays after the undo: there is an order list to take the order from. */
  lemma UndoReplays(h: seq<Event>, placed: Event, e: Event, e': Event)
    requires Replay(Accounts.HANDLERS, h).Ok? && placed in h && placed.body.OrderCreated?
    requires e.body.RollbackFundsWithdrawn? && e'.body.RollbackOrderCreated?
    ensures Replay(Accounts.HANDLERS, h + [e, e']).Ok?
  {
    Accounts.OrdersSetOnceOrdered(h);
    var s := Replay(Accounts.HANDLERS, h).value;
    ReplayAppend(Accounts.HANDLERS, Accounts.HANDLERS.initial, h, [e, e']);
    assert [e, e'][..1] == [e] && [e][..0] == [];
    assert ReplayFrom(Accounts.HANDLERS, s, [e]) == Accounts.Apply(s, e.body);
  }

  lemma PlacedIsOnStream(log: seq<Event>, b: Book, inventories: set<Id>, nextId: nat, c: Id)
    requires BookOk(b, inventories, nextId) && LogOk(log, b) && c in b
    ensures b[c].placed in OfStream(log, b[c].order.accountId) && b[c].placed.body.OrderCreated?
  {
    assert EntryOk(c, b[c], inventories, nextId);
    FilterMembers(log, (x: Event) => InAccountPart(x, c));
    assert AccountSide(log, c, b[c]);
    assert b[c].placed in AccountPart(log, c);
    OfStreamMembers(log, b[c].order.accountId);
  }

  lemma UndoKeepsStream(log: seq<Event>, placed: Event, e: Event, e': Event, id: Id)
    requires Replay(Accounts.HANDLERS, OfStream(log, id)).Ok? && e.stream == e'.stream
    requires placed in OfStream(log, e.stream) && placed.body.OrderCreated?
    requires e.body.RollbackFundsWithdrawn? && e'.body.RollbackOrderCreated?
    ensures Replay(Accounts.HANDLERS, OfStream(log + [e, e'], id)).Ok?
  {
    FilterAppend(log, [e, e'], (x: Event) => x.stream == id);
    if id == e.stream {
      OfStreamAll([e, e'], id);
      UndoReplays(OfStream(log, id), placed, e, e');
    } else {
      OfStreamNone([e, e'], id);
      assert OfStream(log + [e, e'], id) == OfStream(log, id);
    }
  }

  lemma StreamsGrow(log: seq<Event>, inventories: set<Id>, nextId: nat, es: seq<Event>, id: Id)
    requires StreamsOk(log, inventories, nextId) && id !in inventories && |id| <= nextId
    requires forall e :: e in es ==> e.stream == id && |e.corr| <= nextId && !InventoryBody(e.body)
    requires forall d :: d !in inventories ==> Replay(Accounts.HANDLERS, OfStream(log + es, d)).Ok?
    ensures StreamsOk(log + es, inventories, nextId + |es|)
  {
  }

  lemma OrderAccount(b: Book, inventories: set<Id>, nextId: nat, c: Id)
    requires BookOk(b, inventories, nextId) && c in b
    ensures b[c].order.accountId !in inventories && |b[c].order.accountId| <= nextId && |c| <= nextId
  {
    assert EntryOk(c, b[c], inventories, nextId);
  }

  lemma UndoKeepsStreams(log: seq<Event>, b: Book, inventories: set<Id>, nextId: nat, c: Id, e: Event, e': Event)
    requires StreamsOk(log, inventories, nextId) && BookOk(b, inventories, nextId) && LogOk(log, b)
    requires c in b && IsUndo(c, b[c].order, e, e')
    ensures StreamsOk(log + [e, e'], inventories, nextId + 2)
  {
    hide LogOk, BookOk;
    PlacedIsOnStream(log, b, inventories, nextId, c);
    OrderAccount(b, inventories, nextId, c);
    forall id | id !in inventories
      ensures Replay(Accounts.HANDLERS, OfStream(log + [e, e'], id)).Ok?
    {
      UndoKeepsStream(log, b[c].placed, e, e', id);
    }
    hide StreamsOk;
    StreamsGrow(log, inventories, nextId, [e, e'], b[c].order.accountId);
  }

  lemma UndoKeepsInv(s: System, b: Book, c: Id, e: Event, e': Event)
    requires s.worker.Some? && c in b && IsUndo(c, b[c].order, e, e')
    requires s.worker.value.message.command == RollbackAccount(b[c].order.accountId, c)
    requires s.worker.value.message.corr == UNSET || s.worker.value.message.corr == c
    requires !RolledBack(s.log, c)
    requires Inv(s, b)
    ensures Inv(AfterWorker(s, [e, e'], []), b)
  {
    hide BookOk, LogOk, StreamsOk, RunsOk, DueOk, WorkOk, CompensationOwed, RegistryOk, WorkerOk, Due, Work, RolledBack;
    var log', m := s.log + [e, e'], s.worker.value.message;
    BookGrows(b, s.inventories, s.nextId, s.nextId + 2);
    UndoKeepsLog(s.log, b, c, e, e');
    UndoKeepsStreams(s.log, b, s.inventories, s.nextId, c, e, e');
    UndoKeepsRuns(s, b, c, [e, e']);
    AfterWorkerPending(s, [e, e'], []);
    assert Work(s) - multiset{m} + multiset([]) == Work(s) - multiset{m};
    OrdinaryKeepsDue(Due(s), s.log, b, s.inventories, s.nextId, [e, e']);
    RollbackEndsWork(Work(s), b, m);
    WorkerIsPending(s);
    UndoKeepsOwed(Work(s), s.log, b, c, m, log');
    NoWorkerOk(log');
  }

  lemma UndoKeepsRuns(s: System, b: Book, c: Id, es: seq<Event>)
    requires RunsOk(s.runs, s.log, b, s.inventories, s.nextId) && c in b && BookOk(b, s.inventories, s.nextId)
    requires forall x :: x in es ==> x.corr == c
    ensures RunsOk(s.runs, s.log + es, b, s.inventories, s.nextId + |es|)
  {
    assert EntryOk(c, b[c], s.inventories, s.nextId);
    assert b[c := b[c]] == b;
    AdvanceKeepsRuns(s, b, c, b[c], es);
  }

  lemma WorkerIsPending(s: System)
    requires s.worker.Some?
    ensures s.worker.value.message in Work(s)
  {
  }

  /** A rollback of an order that is rolled back already throws: a command with a correlation
      sends the registered rollback again, one without sends nothing. */
  lemma SecondRollbackKeepsInv(s: System, b: Book, c: Id, ms: seq<Message>)
    requires s.worker.Some? && c in b && Registered(b[c].phase)
    requires s.worker.value.message.command == RollbackAccount(b[c].order.accountId, c)
    requires s.worker.value.message.corr == UNSET || s.worker.value.message.corr == c
    requires RolledBack(s.log, c) && (ms == [] || ms == [RollbackMessage(c, b[c].order, UNSET)])
    requires Inv(s, b)
    ensures Inv(AfterWorker(s, [], ms), b)
  {
    hide BookOk, LogOk, StreamsOk, RunsOk, DueOk, WorkOk, CompensationOwed, RegistryOk, WorkerOk, Due, Work, RolledBack;
    var m := s.worker.value.message;
    assert s.log + [] == s.log && s.events + [] == s.events;
    AfterWorkerPending(s, [], ms);
    assert Due(s) + multiset([]) == Due(s);
    RollbackEndsWork(Work(s), b, m);
    WorkerIsPending(s);
    UndoKeepsOwed(Work(s), s.log, b, c, m, s.log);
    if ms == [] {
      assert Work(s) - multiset{m} + multiset(ms) == Work(s) - multiset{m};
    } else {
      RollbackJoinsWork(Work(s) - multiset{m}, b, c, UNSET);
      RollbackJoinsOwed(Work(s) - multiset{m}, s.log, b, c, UNSET);
    }
    NoWorkerOk(s.log);
  }

  /** One more rollback for an order that is owed one changes nothing. */
  lemma RollbackJoinsOwed(work: multiset<Message>, log: seq<Event>, b: Book, c: Id, corr: Id)
    requires CompensationOwed(work, log, b) && c in b && RolledBack(log, c)
    ensures CompensationOwed(work + multiset{RollbackMessage(c, b[c].order, corr)}, log, b)
  {
    var n := RollbackMessage(c, b[c].order, corr);
    forall d | d in b && d != c
      ensures RollbackPending(work + multiset{n}, d, b[d].order) <==> RollbackPending(work, d, b[d].order)
    {
    }
  }

  // ---- The end of a published command ----

  lemma FinishCommandStep(s: System)
    requires s.worker.Some?
    ensures Step(s, FinishCommand)
         == match Decide(s.worker.value, false, s.nextId)
            case Commit(es) => AfterWorker(s, es, [])
            case Throw(reported) => AfterWorker(s, reported, Sagas.RollbackMessages(s.sets, s.worker.value.message.corr))
  {
    hide Decide, Sagas.RollbackMessages;
    assert s.commands + [] == s.commands;
  }

  lemma RemovalDecision(r: Run, uuid: nat)
    requires r.message.command.RemoveInventory?
    ensures var c := r.message.command;
            Decide(r, false, uuid) ==
              match Replay(Inventories.HANDLERS, r.snapshot)
              case Err(_) => Throw([])
              case Ok(inventory) =>
                if inventory.quantity.Some? && inventory.quantity.value - c.quantity < 0 then Throw([])
                else Commit([Event(uuid, c.inventoryId, r.message.corr, InventoryRemoved(c.quantity))])
  {
  }

  lemma RemoveCommandKeepsInv(s: System, b: Book, s': System, b': Book)
    requires s.worker.Some? && s.worker.value.message.command.RemoveInventory?
    requires s' == Step(s, FinishCommand) && b' == Track(s, b, FinishCommand)
    requires Inv(s, b)
    ensures Inv(s', b')
  {
    hide BookOk, LogOk, StreamsOk, RunsOk, DueOk, WorkOk, CompensationOwed, RegistryOk, WorkerOk, Due, Work, Step, Decide;
    var r := s.worker.value;
    var m := r.message;
    var c := m.corr;
    WorkerIsPending(s);
    IssuedIfPending(Work(s), b, m);
    FinishCommandStep(s);
    RemovalDecision(r, s.nextId);
    if Decide(r, false, s.nextId).Commit? {
      var e := Event(s.nextId, b[c].order.inventoryId, c, InventoryRemoved(b[c].order.quantity));
      assert Decide(r, false, s.nextId) == Commit([e]);
      RemovalKeepsInv(s, b, c, e);
    } else {
      assert Decide(r, false, s.nextId) == Throw([]);
      OrderAccountIsProper(b, s.inventories, s.nextId, c);
      RegistryOfOrder(s.sets, b, c);
      FailureKeepsInv(s, b, c);
    }
  }

  lemma OrderAccountIsProper(b: Book, inventories: set<Id>, nextId: nat, c: Id)
    requires BookOk(b, inventories, nextId) && c in b
    ensures ':' !in b[c].order.accountId && c != UNSET && c != "undefined"
    ensures b[c].placed.body == OrderCreated(b[c].order) && b[c].paid.body == FundsWithdrawn(-b[c].order.cost)
    ensures b[c].placed.corr == b[c].paid.corr == c && b[c].placed.stream == b[c].paid.stream == b[c].order.accountId
  {
    assert EntryOk(c, b[c], inventories, nextId);
  }

  lemma RollbackIfPending(work: multiset<Message>, b: Book, m: Message)
    requires WorkOk(work, b) && m in work && m.command.RollbackAccount?
    ensures var c := m.command.correlationId;
            && c in b && Registered(b[c].phase) && m.command.streamId == b[c].order.accountId
            && (m.corr == UNSET || m.corr == c)
  {
    assert MessageOk(m, b);
  }

  lemma PartBeforeUndo(log: seq<Event>, b: Book, c: Id)
    requires LogOk(log, b) && c in b
    ensures if RolledBack(log, c)
            then exists x :: x in AccountPart(log, c) && x.body.RollbackFundsWithdrawn?
            else AccountPart(log, c) == [b[c].placed, b[c].paid]
  {
    assert AccountSide(log, c, b[c]);
    if RolledBack(log, c) {
      assert AccountPart(log, c)[2] in AccountPart(log, c);
    }
  }

  /** The decision of the worker on a rollback command. */
  lemma WorkerRollback(s: System, b: Book)
    requires s.worker.Some? && s.worker.value.message.command.RollbackAccount?
    requires WorkerOk(s.worker, s.log) && WorkOk(Work(s), b) && LogOk(s.log, b) && BookOk(b, s.inventories, s.nextId)
    ensures var r := s.worker.value;
            var c := r.message.command.correlationId;
            && c in b
            && if RolledBack(s.log, c) then Decide(r, false, s.nextId) == Throw([])
               else Decide(r, false, s.nextId) == Commit([
                 Event(s.nextId, b[c].order.accountId, c, RollbackFundsWithdrawn(-b[c].order.cost)),
                 Event(s.nextId + 1, b[c].order.accountId, c, RollbackOrderCreated(b[c].order.id))])
  {
    hide Decide, WorkOk, LogOk, BookOk, RolledBack, Work;
    var r := s.worker.value;
    var c := r.message.command.correlationId;
    WorkerIsPending(s);
    RollbackIfPending(Work(s), b, r.message);
    OrderAccountIsProper(b, s.inventories, s.nextId, c);
    PartBeforeUndo(s.log, b, c);
    RollbackDecision(r, c, b[c], s.nextId);
  }

  lemma RollbackCommandKeepsInv(s: System, b: Book, s': System)
    requires s.worker.Some? && s.worker.value.message.command.RollbackAccount?
    requires s' == Step(s, FinishCommand)
    requires Inv(s, b)
    ensures Inv(s', b)
  {
    hide BookOk, LogOk, StreamsOk, RunsOk, DueOk, WorkOk, CompensationOwed, RegistryOk, WorkerOk, Due, Work, Step, Decide, RolledBack;
    var m := s.worker.value.message;
    var c := m.command.correlationId;
    WorkerIsPending(s);
    RollbackIfPending(Work(s), b, m);
    FinishCommandStep(s);
    WorkerRollback(s, b);
    if RolledBack(s.log, c) {
      OrderAccountIsProper(b, s.inventories, s.nextId, c);
      RegistryOfOrder(s.sets, b, c);
      UnsetIsNoOrder(b, s.inventories, s.nextId);
      RegistryOfUnset(s.sets, b);
      SecondRollbackKeepsInv(s, b, c, Sagas.RollbackMessages(s.sets, m.corr));
    } else {
      var e := Event(s.nextId, b[c].order.accountId, c, RollbackFundsWithdrawn(-b[c].order.cost));
      var e' := Event(s.nextId + 1, b[c].order.accountId, c, RollbackOrderCreated(b[c].order.id));
      UndoKeepsInv(s, b, c, e, e');
    }
  }

  lemma RegistryOfUnset(sets: Caches.Sets, b: Book)
    requires RegistryOk(sets, b) && UNSET !in b
    ensures Sagas.RollbackMessages(sets, UNSET) == []
  {
    RegistryOfOthers(sets, b, UNSET);
  }

  lemma WorkerIsPublished(s: System, b: Book)
    requires s.worker.Some? && WorkOk(Work(s), b)
    ensures s.worker.value.message.command.RemoveInventory? || s.worker.value.message.command.RollbackAccount?
  {
    WorkerIsPending(s);
    assert MessageOk(s.worker.value.message, b);
  }

  lemma FinishCommandKeepsInv(s: System, b: Book, s': System, b': Book)
    requires s.worker.Some? && s' == Step(s, FinishCommand) && b' == Track(s, b, FinishCommand)
    requires Inv(s, b)
    ensures Inv(s', b')
  {
    hide BookOk, LogOk, StreamsOk, RunsOk, DueOk, WorkOk, CompensationOwed, RegistryOk, WorkerOk, Work, Step, Decide;
    WorkerIsPublished(s, b);
    if s.worker.value.message.command.RemoveInventory? {
      RemoveCommandKeepsInv(s, b, s', b');
    } else {
      RollbackCommandKeepsInv(s, b, s');
    }
  }

  // ---- Event delivery ----

  lemma TakeEventKeepsInv(s: System, b: Book, i: nat)
    requires Enabled(s, TakeEvent(i))
    requires Inv(s, b)
    ensures Inv(Step(s, TakeEvent(i)), b)
  {
    hide BookOk, LogOk, StreamsOk, RunsOk, DueOk, WorkOk, CompensationOwed, RegistryOk, WorkerOk;
    RemoveAtMultiset(s.events, i);
    var s' := Step(s, TakeEvent(i));
    assert Due(s') == Due(s);
    assert Work(s') == Work(s);
  }

  lemma PublishNextKeepsInv(s: System, b: Book)
    requires Enabled(s, PublishNext)
    requires Inv(s, b)
    ensures Inv(Step(s, PublishNext), b)
  {
    hide BookOk, LogOk, StreamsOk, RunsOk, DueOk, WorkOk, CompensationOwed, RegistryOk, WorkerOk;
    HeadMultiset(s.delivery.value.outbox);
    var s' := Step(s, PublishNext);
    assert Due(s') == Due(s);
    assert Work(s') == Work(s);
  }

  lemma AcknowledgeKeepsInv(s: System, b: Book)
    requires Enabled(s, Acknowledge)
    requires Inv(s, b)
    ensures Inv(Step(s, Acknowledge), b)
  {
    hide BookOk, LogOk, StreamsOk, RunsOk, DueOk, WorkOk, CompensationOwed, RegistryOk, WorkerOk;
    var s' := Step(s, Acknowledge);
    assert Due(s') == Due(s);
    assert Work(s') == Work(s);
  }

  function AfterSettle(s: System, rows: map<Id, Row>, sets: Caches.Sets, outbox: seq<Message>): System
    requires s.delivery.Some?
  {
    s.(rows := rows, sets := sets, delivery := Some(s.delivery.value.(settled := true, outbox := outbox)))
  }

  lemma AfterSettlePending(s: System, rows: map<Id, Row>, sets: Caches.Sets, outbox: seq<Message>)
    requires Enabled(s, Settle(false))
    ensures Due(AfterSettle(s, rows, sets, outbox)) == Due(s) - multiset{s.delivery.value.event}
    ensures Work(AfterSettle(s, rows, sets, outbox)) == Work(s) + multiset(outbox)
    ensures s.delivery.value.event in Due(s)
  {
  }

  lemma SettledKeepsDue(due: multiset<Event>, log: seq<Event>, b: Book, inventories: set<Id>, nextId: nat, e: Event)
    requires DueOk(due, log, b) && BookOk(b, inventories, nextId) && e in due && !e.body.OrderCreated?
    ensures DueOk(due - multiset{e}, log, b)
  {
    forall c | c in b
      ensures (due - multiset{e})[b[c].placed] == due[b[c].placed]
    {
      assert EntryOk(c, b[c], inventories, nextId);
    }
  }

  lemma PlacedIfDue(due: multiset<Event>, log: seq<Event>, b: Book, e: Event)
    requires DueOk(due, log, b) && e in due && e.body.OrderCreated?
    ensures e.corr in b && e == b[e.corr].placed && b[e.corr].phase.Placed? && due[e] == 1
  {
  }

  lemma PlacedKeepsDue(due: multiset<Event>, log: seq<Event>, b: Book, inventories: set<Id>, nextId: nat, c: Id, e': Entry)
    requires DueOk(due, log, b) && BookOk(b, inventories, nextId)
    requires c in b && b[c].phase.Placed? && Advanced(b[c], e') && !e'.phase.Placed?
    ensures DueOk(due - multiset{b[c].placed}, log, b[c := e'])
  {
    var e := b[c].placed;
    assert EntryOk(c, b[c], inventories, nextId);
    forall d | d in b && d != c
      ensures (due - multiset{e})[b[d].placed] == due[b[d].placed]
    {
      assert EntryOk(d, b[d], inventories, nextId);
    }
    forall x | x in due - multiset{e}
      ensures x in due && x != e
    {
    }
  }

  lemma AdvanceKeepsLog(log: seq<Event>, b: Book, c: Id, e': Entry)
    requires LogOk(log, b) && c in b && Advanced(b[c], e') && (b[c].phase.Removed? <==> e'.phase.Removed?)
    ensures LogOk(log, b[c := e'])
  {
    assert AccountSide(log, c, b[c]) && RemovalSide(log, c, b[c]);
  }

  /** An accepted delivery of OrderCreated: the rollback is registered, RemoveInventory issued. */
  lemma IssueKeepsRegistry(sets: Caches.Sets, b: Book, c: Id)
    requires RegistryOk(sets, b) && c in b && b[c].phase.Placed? && c != UNSET && c != "undefined"
    ensures RegistryOk(Sagas.Register(sets, c, Sagas.ROLLBACK_ACCOUNT, b[c].order.accountId), b[c := b[c].(phase := Issued)])
  {
    var sets' := Sagas.Register(sets, c, Sagas.ROLLBACK_ACCOUNT, b[c].order.accountId);
    forall d
      ensures d != c ==> Caches.Members(sets', Sagas.SetKey(d)) == Caches.Members(sets, Sagas.SetKey(d))
    {
      Sagas.SetKeysDiffer(c, d);
    }
    assert Caches.Members(sets, Sagas.SetKey(c)) == [];
  }

  lemma IssueKeepsWork(work: multiset<Message>, b: Book, c: Id)
    requires WorkOk(work, b) && c in b && b[c].phase.Placed?
    ensures WorkOk(work + multiset{RemoveMessage(c, b[c].order)}, b[c := b[c].(phase := Issued)])
  {
    var m, b' := RemoveMessage(c, b[c].order), b[c := b[c].(phase := Issued)];
    forall x | x in work
      ensures MessageOk(x, b')
    {
      assert MessageOk(x, b);
    }
    assert MessageOk(m, b');
  }

  lemma IssueKeepsOwed(work: multiset<Message>, log: seq<Event>, b: Book, c: Id)
    requires CompensationOwed(work, log, b) && c in b && b[c].phase.Placed?
    ensures CompensationOwed(work + multiset{RemoveMessage(c, b[c].order)}, log, b[c := b[c].(phase := Issued)])
  {
    var m := RemoveMessage(c, b[c].order);
    forall d | d in b
      ensures RollbackPending(work + multiset{m}, d, b[d].order) <==> RollbackPending(work, d, b[d].order)
    {
    }
  }

  lemma IssueKeepsInv(s: System, b: Book, c: Id)
    requires Enabled(s, Settle(false)) && c in b && s.delivery.value.event == b[c].placed && b[c].phase.Placed?
    requires Inv(s, b)
    ensures Inv(AfterSettle(s, s.rows, Sagas.Register(s.sets, c, Sagas.ROLLBACK_ACCOUNT, b[c].order.accountId),
                            [RemoveMessage(c, b[c].order)]),
                b[c := b[c].(phase := Issued)])
  {
    hide BookOk, LogOk, StreamsOk, RunsOk, DueOk, WorkOk, CompensationOwed, RegistryOk, WorkerOk, Due, Work, Sagas.Register;
    var e' := b[c].(phase := Issued);
    var sets' := Sagas.Register(s.sets, c, Sagas.ROLLBACK_ACCOUNT, b[c].order.accountId);
    assert s.log + [] == s.log;
    AdvanceKeepsBook(b, c, e', s.inventories, s.nextId, s.nextId);
    AdvanceKeepsLog(s.log, b, c, e');
    AdvanceKeepsRuns(s, b, c, e', []);
    AfterSettlePending(s, s.rows, sets', [RemoveMessage(c, b[c].order)]);
    OrderAccountIsProper(b, s.inventories, s.nextId, c);
    PlacedKeepsDue(Due(s), s.log, b, s.inventories, s.nextId, c, e');
    IssueKeepsRegistry(s.sets, b, c);
    IssueKeepsWork(Work(s), b, c);
    IssueKeepsOwed(Work(s), s.log, b, c);
  }

  /** A rejected delivery of OrderCreated: nothing is registered yet, so nothing is rolled back. */
  lemma RefuseKeepsWork(work: multiset<Message>, b: Book, c: Id)
    requires WorkOk(work, b) && c in b && b[c].phase.Placed?
    ensures WorkOk(work, b[c := b[c].(phase := Refused)])
  {
    forall x | x in work
      ensures MessageOk(x, b[c := b[c].(phase := Refused)])
    {
      assert MessageOk(x, b);
    }
  }

  lemma RefuseKeepsInv(s: System, b: Book, c: Id)
    requires Enabled(s, Settle(true)) && c in b && s.delivery.value.event == b[c].placed && b[c].phase.Placed? && !b[c].late
    requires Inv(s, b)
    ensures Inv(AfterSettle(s, s.rows, s.sets, []), b[c := b[c].(phase := Refused)])
  {
    hide BookOk, LogOk, StreamsOk, RunsOk, DueOk, WorkOk, RegistryOk, WorkerOk, Due, Work, RolledBack, RollbackPending;
    var e' := b[c].(phase := Refused);
    assert s.log + [] == s.log;
    AdvanceKeepsBook(b, c, e', s.inventories, s.nextId, s.nextId);
    AdvanceKeepsLog(s.log, b, c, e');
    AdvanceKeepsRuns(s, b, c, e', []);
    AfterSettlePending(s, s.rows, s.sets, []);
    assert Work(s) + multiset([]) == Work(s);
    OrderAccountIsProper(b, s.inventories, s.nextId, c);
    PlacedKeepsDue(Due(s), s.log, b, s.inventories, s.nextId, c, e');
    AdvanceKeepsRegistry(s.sets, b, c, e');
    RefuseKeepsWork(Work(s), b, c);
  }

  /** An accepted delivery of any other event at most saves a row. */
  lemma RowKeepsInv(s: System, b: Book, rows: map<Id, Row>)
    requires Enabled(s, Settle(false)) && !s.delivery.value.event.body.OrderCreated?
    requires rows.Keys <= s.inventories
    requires Inv(s, b)
    ensures Inv(AfterSettle(s, rows, s.sets, []), b)
  {
    hide BookOk, LogOk, StreamsOk, RunsOk, DueOk, WorkOk, CompensationOwed, RegistryOk, WorkerOk, Due, Work;
    AfterSettlePending(s, rows, s.sets, []);
    assert Work(s) + multiset([]) == Work(s);
    SettledKeepsDue(Due(s), s.log, b, s.inventories, s.nextId, s.delivery.value.event);
  }

  /** A rejected delivery after the order registered its rollback sends that rollback. */
  lemma LateKeepsWork(work: multiset<Message>, b: Book, c: Id)
    requires WorkOk(work, b) && c in b
    ensures WorkOk(work, b[c := b[c].(late := true)])
  {
    forall x | x in work
      ensures MessageOk(x, b[c := b[c].(late := true)])
    {
      assert MessageOk(x, b);
    }
  }

  lemma LateKeepsOwed(work: multiset<Message>, log: seq<Event>, b: Book, c: Id)
    requires CompensationOwed(work, log, b) && c in b
    ensures CompensationOwed(work + multiset{RollbackMessage(c, b[c].order, c)}, log, b[c := b[c].(late := true)])
  {
    var n := RollbackMessage(c, b[c].order, c);
    forall d | d in b
      ensures d != c ==> (RollbackPending(work + multiset{n}, d, b[d].order) <==> RollbackPending(work, d, b[d].order))
      ensures d == c ==> RollbackPending(work + multiset{n}, d, b[d].order)
    {
    }
  }

  lemma LateKeepsInv(s: System, b: Book, c: Id)
    requires Enabled(s, Settle(true)) && !s.delivery.value.event.body.OrderCreated?
    requires c in b && Registered(b[c].phase)
    requires Inv(s, b)
    ensures Inv(AfterSettle(s, s.rows, s.sets, [RollbackMessage(c, b[c].order, c)]), b[c := b[c].(late := true)])
  {
    hide BookOk, LogOk, StreamsOk, RunsOk, DueOk, WorkOk, CompensationOwed, RegistryOk, WorkerOk, Due, Work;
    var e' := b[c].(late := true);
    assert s.log + [] == s.log;
    AdvanceKeepsBook(b, c, e', s.inventories, s.nextId, s.nextId);
    AdvanceKeepsLog(s.log, b, c, e');
    AdvanceKeepsRuns(s, b, c, e', []);
    AfterSettlePending(s, s.rows, s.sets, [RollbackMessage(c, b[c].order, c)]);
    SettledKeepsDue(Due(s), s.log, b, s.inventories, s.nextId, s.delivery.value.event);
    AdvanceKeepsDue(Due(s) - multiset{s.delivery.value.event}, s.log, b, c, e', s.inventories, s.nextId, []);
    assert Due(s) - multiset{s.delivery.value.event} + multiset([]) == Due(s) - multiset{s.delivery.value.event};
    AdvanceKeepsRegistry(s.sets, b, c, e');
    LateKeepsWork(Work(s), b, c);
    RollbackJoinsWork(Work(s), b[c := e'], c, c);
    LateKeepsOwed(Work(s), s.log, b, c);
  }

  lemma SettleStep(s: System, rejected: bool)
    requires Enabled(s, Settle(rejected))
    ensures var e := s.delivery.value.event;
            Step(s, Settle(rejected)) ==
              if rejected && Handled(e.body) then
                AfterSettle(s, s.rows, s.sets, Correlate(Sagas.RollbackMessages(s.sets, e.corr), e.corr))
              else if e.body.OrderCreated? then
                AfterSettle(s, s.rows, Sagas.Register(s.sets, e.corr, Sagas.ROLLBACK_ACCOUNT, e.stream),
                            Correlate([Message(RemoveInventory(e.body.order.inventoryId, e.body.order.id, e.body.order.quantity), UNSET)], e.corr))
              else AfterSettle(s, SaveRow(s.rows, e, s.delivery.value.snapshot), s.sets, [])
  {
    hide Sagas.RollbackMessages, Sagas.Register, Sagas.ProcessAll;
    Sagas.ProcessOrderStep(s.sets, s.delivery.value.event);
    assert Correlate([], s.delivery.value.event.corr) == [];
  }

  lemma CorrelateOne(m: Message, c: Id)
    requires c != UNSET
    ensures Correlate([m], c) == [m.(corr := c)]
  {
  }

  lemma CorrelateNone(c: Id)
    ensures Correlate([], c) == []
  {
  }

  lemma DeliveredIsDue(s: System, b: Book)
    requires s.delivery.Some? && !s.delivery.value.settled && DueOk(Due(s), s.log, b)
    ensures s.delivery.value.event in Due(s) && s.delivery.value.event in s.log
  {
  }

  lemma RowsStayInInventories(s: System, e: Event, snapshot: seq<Event>)
    requires StreamsOk(s.log, s.inventories, s.nextId) && e in s.log && s.rows.Keys <= s.inventories
    ensures SaveRow(s.rows, e, snapshot).Keys <= s.inventories
  {
  }

  lemma PlacedIsNotLate(b: Book, inventories: set<Id>, nextId: nat, c: Id)
    requires BookOk(b, inventories, nextId) && c in b && b[c].phase.Placed?
    ensures !b[c].late
  {
    assert EntryOk(c, b[c], inventories, nextId);
  }

  lemma SettleOrderKeepsInv(s: System, b: Book, rejected: bool, s': System, b': Book)
    requires Enabled(s, Settle(rejected)) && s.delivery.value.event.body.OrderCreated?
    requires s' == Step(s, Settle(rejected)) && b' == Track(s, b, Settle(rejected))
    requires Inv(s, b)
    ensures Inv(s', b')
  {
    hide BookOk, LogOk, StreamsOk, RunsOk, DueOk, WorkOk, CompensationOwed, RegistryOk, WorkerOk, Due, Work, Step, Sagas.Register;
    var e := s.delivery.value.event;
    var c := e.corr;
    DeliveredIsDue(s, b);
    PlacedIfDue(Due(s), s.log, b, e);
    PlacedIsNotLate(b, s.inventories, s.nextId, c);
    OrderAccountIsProper(b, s.inventories, s.nextId, c);
    SettleStep(s, rejected);
    if rejected {
      RegistryOfOrder(s.sets, b, c);
      CorrelateNone(c);
      RefuseKeepsInv(s, b, c);
    } else {
      CorrelateOne(Message(RemoveInventory(e.body.order.inventoryId, e.body.order.id, e.body.order.quantity), UNSET), c);
      IssueKeepsInv(s, b, c);
    }
  }

  lemma SettleOtherKeepsInv(s: System, b: Book, rejected: bool, s': System, b': Book)
    requires Enabled(s, Settle(rejected)) && !s.delivery.value.event.body.OrderCreated?
    requires s' == Step(s, Settle(rejected)) && b' == Track(s, b, Settle(rejected))
    requires Inv(s, b)
    ensures Inv(s', b')
  {
    hide BookOk, LogOk, StreamsOk, RunsOk, DueOk, WorkOk, CompensationOwed, RegistryOk, WorkerOk, Due, Work, Step, SaveRow;
    var e := s.delivery.value.event;
    var c := e.corr;
    DeliveredIsDue(s, b);
    SettleStep(s, rejected);
    CorrelateNone(c);
    if !(rejected && Handled(e.body)) {
      RowsStayInInventories(s, e, s.delivery.value.snapshot);
      RowKeepsInv(s, b, SaveRow(s.rows, e, s.delivery.value.snapshot));
    } else if c !in b {
      RegistryOfOthers(s.sets, b, c);
      RowKeepsInv(s, b, s.rows);
    } else {
      OrderAccountIsProper(b, s.inventories, s.nextId, c);
      RegistryOfOrder(s.sets, b, c);
      if Registered(b[c].phase) {
        CorrelateOne(RollbackMessage(c, b[c].order, UNSET), c);
        LateKeepsInv(s, b, c);
      } else {
        RowKeepsInv(s, b, s.rows);
      }
    }
  }

  // ---- Every step ----

  lemma FinishKeepsInv(s: System, b: Book, i: nat, nameTaken: bool, s': System, b': Book)
    requires i < |s.runs| && s' == Step(s, Finish(i, nameTaken)) && b' == Track(s, b, Finish(i, nameTaken))
    requires Inv(s, b)
    ensures Inv(s', b')
  {
    hide Step, Decide, Inv;
    if s.runs[i].message.command.CreateOrder? && Decide(s.runs[i], nameTaken, s.nextId).Commit? {
      FinishOrderKeepsInv(s, b, i, nameTaken, s', b');
    } else {
      FinishOrdinaryKeepsInv(s, b, i, nameTaken, s');
    }
  }

  lemma StepKeepsInv(s: System, b: Book, l: Label, s': System, b': Book)
    requires Enabled(s, l) && s' == Step(s, l) && b' == Track(s, b, l)
    requires Inv(s, b)
    ensures Inv(s', b')
  {
    hide Inv, Accept, Decide, SettleEvent, Conclude, Start, Due, Work;
    match l
    case Request(c) => RequestKeepsInv(s, b, c);
    case Finish(i, nameTaken) => FinishKeepsInv(s, b, i, nameTaken, s', b');
    case TakeCommand(i) => TakeCommandKeepsInv(s, b, i);
    case FinishCommand => FinishCommandKeepsInv(s, b, s', b');
    case TakeEvent(i) => TakeEventKeepsInv(s, b, i);
    case Settle(rejected) =>
      if s.delivery.value.event.body.OrderCreated? {
        SettleOrderKeepsInv(s, b, rejected, s', b');
      } else {
        SettleOtherKeepsInv(s, b, rejected, s', b');
      }
    case PublishNext => PublishNextKeepsInv(s, b);
    case Acknowledge => AcknowledgeKeepsInv(s, b);
  }
}
