/** Unique inventory names: reserve, check the projection, commit, project, release.

    Any number of create-inventory runs and deliveries of InventoryCreated interleave at every
    await point. Runs and deliveries may crash between any two steps and an event may be delivered
    any number of times. sha1 and JSON encoding are injective, so a name stands for its digest. */
module Reservation {
  import opened Wrappers
  import opened Events
  import Caches

  const NAME_KEY := "InventoryAggregate__name"

  datatype Created = Created(stream: Id, name: string)

  /** What the runs share: the cache sets, the projection table, the InventoryCreated events. */
  datatype Shared = Shared(sets: Caches.Sets, rows: map<Id, string>, committed: seq<Created>)

  predicate Reserved(sh: Shared, name: string) {
    name in Caches.Members(sh.sets, NAME_KEY)
  }

  /** `nameExists`. */
  predicate Projected(sh: Shared, name: string) {
    name in sh.rows.Values
  }

  function ReserveValue(sh: Shared, name: string): (Shared, bool) {
    var (sets, isNew) := Caches.Add(sh.sets, NAME_KEY, name);
    (sh.(sets := sets), isNew)
  }

  function ReleaseValue(sh: Shared, name: string): Shared {
    if NAME_KEY !in sh.sets then sh
    else sh.(sets := sh.sets[NAME_KEY := Caches.Remove(sh.sets[NAME_KEY], name)])
  }

  function CommitCreated(sh: Shared, stream: Id, name: string): Shared {
    sh.(committed := sh.committed + [Created(stream, name)])
  }

  /** `aggregate.name` after `mergeContext`: the last InventoryCreated of the stream decides. */
  function NameOf(committed: seq<Created>, stream: Id): Option<string> {
    if committed == [] then None
    else if committed[|committed| - 1].stream == stream then Some(committed[|committed| - 1].name)
    else NameOf(committed[..|committed| - 1], stream)
  }

  function SaveRow(sh: Shared, stream: Id, name: string): Shared {
    sh.(rows := sh.rows[stream := name])
  }

  lemma ReserveEffect(sh: Shared, name: string, n: string)
    ensures ReserveValue(sh, name).1 <==> !Reserved(sh, name)
    ensures Reserved(ReserveValue(sh, name).0, n) <==> Reserved(sh, n) || n == name
  {
  }

  lemma ReleaseEffect(sh: Shared, name: string, n: string)
    ensures Reserved(ReleaseValue(sh, name), n) <==> Reserved(sh, n) && n != name
  {
    var ms := Caches.Members(sh.sets, NAME_KEY);
    Caches.RemoveMembers(ms, name);
    assert n in Caches.ToSet(Caches.Remove(ms, name)) <==> n in Caches.ToSet(ms) - {name};
  }

  // ---- The handlers, run alone ----

  class CreateInventoryHandler {
    const cache: Caches.MemoryCache
    var rows: map<Id, string>
    var committed: seq<Created>

    function View(): Shared
      reads this, cache
    {
      Shared(cache.sets, rows, committed)
    }

    constructor (cache: Caches.MemoryCache)
      ensures this.cache == cache && View() == Shared(cache.sets, map[], [])
    {
      this.cache, rows, committed := cache, map[], [];
    }

    /** `execute` with its early throws; `false` is DuplicateInventoryNameException. */
    method Execute(stream: Id, name: string) returns (created: bool)
      modifies this`committed, cache`sets
      ensures created <==> !old(Reserved(View(), name)) && !old(Projected(View(), name))
      ensures committed == if created then old(committed) + [Created(stream, name)] else old(committed)
      ensures forall n :: Reserved(View(), n) <==> old(Reserved(View(), n)) || (created && n == name)
      ensures View() ==
              if old(Reserved(View(), name)) then old(View())
              else
                var held := ReserveValue(old(View()), name).0;
                if created then CommitCreated(held, stream, name) else ReleaseValue(held, name)
    {
      ghost var before := View();
      forall n
        ensures Reserved(ReserveValue(before, name).0, n) <==> Reserved(before, n) || n == name
        ensures Reserved(ReleaseValue(ReserveValue(before, name).0, name), n) <==> (Reserved(before, n) || n == name) && n != name
      {
        ReserveEffect(before, name, n);
        ReleaseEffect(ReserveValue(before, name).0, name, n);
      }
      var reserved := cache.HandleAddToSet(NAME_KEY, name);
      if !reserved {
        return false;
      }
      if name in rows.Values {
        var _ := cache.HandleRemoveFromSet(NAME_KEY, name);
        return false;
      }
      committed := committed + [Created(stream, name)];
      return true;
    }

    /** `InventoryCreatedHandler.execute`: project, then release. */
    method Project(stream: Id)
      requires NameOf(committed, stream).Some?
      modifies this`rows, cache`sets
      ensures var name := NameOf(old(committed), stream).value;
              && View() == ReleaseValue(SaveRow(old(View()), stream, name), name)
              && rows == old(rows)[stream := name]
              && forall n :: Reserved(View(), n) <==> old(Reserved(View(), n)) && n != name
    {
      ghost var before := View();
      forall n
        ensures Reserved(ReleaseValue(SaveRow(before, stream, NameOf(committed, stream).value), NameOf(committed, stream).value), n)
          <==> Reserved(before, n) && n != NameOf(committed, stream).value
      {
        ReleaseEffect(SaveRow(before, stream, NameOf(committed, stream).value), NameOf(committed, stream).value, n);
      }
      var name := NameOf(committed, stream).value;
      rows := rows[stream := name];
      var _ := cache.HandleRemoveFromSet(NAME_KEY, name);
    }
  }

  // ---- All interleavings ----

  datatype Phase = Reserving | Checking | Releasing | Committing | Committed | Refused | Crashed

  /** A create-inventory run; `obtained` records that its reservation once succeeded. */
  datatype Run = Run(stream: Id, name: string, phase: Phase, obtained: bool)

  datatype DeliveryPhase = Saving | Freeing | Settled | Lost

  datatype Delivery = Delivery(stream: Id, name: string, phase: DeliveryPhase)

  datatype System = System(shared: Shared, runs: seq<Run>, deliveries: seq<Delivery>)

  datatype Label =
    | Request(stream: Id, name: string)
    | Advance(run: nat)
    | Crash(run: nat)
    | Deliver(event: nat)
    | AdvanceDelivery(delivery: nat)
    | LoseDelivery(delivery: nat)

  /** Stream ids are `randomUUID` values, so no two requests share one. */
  predicate FreshStream(s: System, stream: Id) {
    forall r :: r in s.runs ==> r.stream != stream
  }

  function StepRun(s: System, i: nat): System
    requires i < |s.runs|
  {
    var r := s.runs[i];
    match r.phase
    case Reserving =>
      var (sh, isNew) := ReserveValue(s.shared, r.name);
      s.(shared := sh, runs := s.runs[i := if isNew then r.(phase := Checking, obtained := true) else r.(phase := Refused)])
    case Checking =>
      s.(runs := s.runs[i := r.(phase := if Projected(s.shared, r.name) then Releasing else Committing)])
    case Releasing =>
      s.(shared := ReleaseValue(s.shared, r.name), runs := s.runs[i := r.(phase := Refused)])
    case Committing =>
      s.(shared := CommitCreated(s.shared, r.stream, r.name), runs := s.runs[i := r.(phase := Committed)])
    case _ => s
  }

  function StepDelivery(s: System, i: nat): System
    requires i < |s.deliveries|
  {
    var d := s.deliveries[i];
    match d.phase
    case Saving =>
      s.(shared := SaveRow(s.shared, d.stream, d.name), deliveries := s.deliveries[i := d.(phase := Freeing)])
    case Freeing =>
      s.(shared := ReleaseValue(s.shared, d.name), deliveries := s.deliveries[i := d.(phase := Settled)])
    case _ => s
  }

  /** A label that is not enabled leaves the system as it is. */
  function Step(s: System, l: Label): System {
    match l
    case Request(stream, name) =>
      if FreshStream(s, stream) then s.(runs := s.runs + [Run(stream, name, Reserving, false)]) else s
    case Advance(i) => if i < |s.runs| then StepRun(s, i) else s
    case Crash(i) =>
      if i < |s.runs| && !s.runs[i].phase.Committed? then s.(runs := s.runs[i := s.runs[i].(phase := Crashed)]) else s
    case Deliver(k) =>
      if k < |s.shared.committed| then
        var stream := s.shared.committed[k].stream;
        var name := NameOf(s.shared.committed, stream);
        if name.Some? then s.(deliveries := s.deliveries + [Delivery(stream, name.value, Saving)]) else s
      else s
    case AdvanceDelivery(i) => if i < |s.deliveries| then StepDelivery(s, i) else s
    case LoseDelivery(i) =>
      if i < |s.deliveries| && !s.deliveries[i].phase.Settled?
      then s.(deliveries := s.deliveries[i := s.deliveries[i].(phase := Lost)]) else s
  }

  function Exec(ls: seq<Label>): System {
    if ls == [] then System(Shared(map[], map[], []), [], []) else Step(Exec(ls[..|ls| - 1]), ls[|ls| - 1])
  }

  /** Until a projection row for the name exists, at most one run has ever obtained its
      reservation, and while one has, the name stays reserved. */
  ghost predicate AtMostOneHolder(s: System, name: string) {
    !Projected(s.shared, name) ==>
      && (forall i, j :: 0 <= i < j < |s.runs| && s.runs[i].name == name && s.runs[j].name == name ==>
            !(s.runs[i].obtained && s.runs[j].obtained))
      && (forall r :: r in s.runs && r.name == name && r.obtained ==> Reserved(s.shared, name))
  }

  ghost predicate RunOk(s: System, r: Run) {
    && (r.phase in {Checking, Releasing, Committing, Committed} ==> r.obtained)
    && (r.phase.Reserving? ==> !r.obtained)
    && (r.phase.Releasing? ==> Projected(s.shared, r.name))
    && (r.phase.Committing? ==> !Projected(s.shared, r.name))
  }

  ghost predicate DeliveryOk(s: System, d: Delivery) {
    && Created(d.stream, d.name) in s.shared.committed
    && (d.phase.Freeing? ==> Projected(s.shared, d.name))
  }

  ghost predicate Inv(s: System) {
    && (forall name :: AtMostOneHolder(s, name))
    && (forall r :: r in s.runs ==> RunOk(s, r))
    && (forall d :: d in s.deliveries ==> DeliveryOk(s, d))
    && (forall i, j :: 0 <= i < j < |s.runs| ==> s.runs[i].stream != s.runs[j].stream)
    && (forall e :: e in s.shared.committed ==> Run(e.stream, e.name, Committed, true) in s.runs)
    && (forall stream :: stream in s.shared.rows ==> Created(stream, s.shared.rows[stream]) in s.shared.committed)
    && NoneTwice(s.shared.committed)
  }

  /** At most one InventoryCreated for each name, and for each stream. */
  ghost predicate NoneTwice(committed: seq<Created>) {
    forall i, j :: 0 <= i < j < |committed| ==>
      committed[i].name != committed[j].name && committed[i].stream != committed[j].stream
  }

  lemma {:induction false} NameOfCommitted(committed: seq<Created>, stream: Id)
    ensures match NameOf(committed, stream)
            case Some(name) => Created(stream, name) in committed
            case None => forall e :: e in committed ==> e.stream != stream
  {
    if committed != [] {
      NameOfCommitted(committed[..|committed| - 1], stream);
      assert committed == committed[..|committed| - 1] + [committed[|committed| - 1]];
    }
  }

  /** A run that changes its phase but not the shared state. */
  lemma MovesKeepInv(s: System, i: nat, r: Run)
    requires Inv(s) && i < |s.runs|
    requires r.stream == s.runs[i].stream && r.name == s.runs[i].name && r.obtained == s.runs[i].obtained
    requires !s.runs[i].phase.Committed? && RunOk(s, r)
    ensures Inv(s.(runs := s.runs[i := r]))
  {
    var s' := s.(runs := s.runs[i := r]);
    OthersStay(s.runs, i, r);
    forall name
      ensures AtMostOneHolder(s', name)
    {
      assert AtMostOneHolder(s, name);
    }
    forall x | x in s'.runs
      ensures RunOk(s', x)
    {
      assert x in s.runs || x == r;
      assert x in s.runs ==> RunOk(s, x);
    }
  }

  lemma OthersStay(runs: seq<Run>, i: nat, r: Run)
    requires i < |runs|
    ensures forall x :: x in runs && x != runs[i] ==> x in runs[i := r]
    ensures forall x :: x in runs[i := r] ==> x in runs || x == r
    ensures r in runs[i := r]
  {
    assert runs[i := r][i] == r;
    forall x | x in runs && x != runs[i]
      ensures x in runs[i := r]
    {
      var j :| 0 <= j < |runs| && runs[j] == x;
      assert runs[i := r][j] == x;
    }
  }

  lemma ReserveKeepsInv(s: System, i: nat)
    requires Inv(s) && i < |s.runs| && s.runs[i].phase.Reserving? && !Reserved(s.shared, s.runs[i].name)
    ensures Inv(StepRun(s, i))
  {
    var r := s.runs[i];
    var r' := r.(phase := Checking, obtained := true);
    var s' := StepRun(s, i);
    assert s'.runs == s.runs[i := r'];
    OthersStay(s.runs, i, r');
    assert RunOk(s, r);
    forall name
      ensures AtMostOneHolder(s', name)
    {
      assert AtMostOneHolder(s, name);
      ReserveEffect(s.shared, r.name, name);
      if !Projected(s.shared, name) && name == r.name {
        assert forall x :: x in s.runs && x.name == name ==> !x.obtained;
      }
    }
    forall x | x in s'.runs
      ensures RunOk(s', x)
    {
      assert x in s.runs ==> RunOk(s, x);
    }
    assert forall d :: d in s.deliveries ==> DeliveryOk(s, d);
    forall e | e in s'.shared.committed
      ensures Run(e.stream, e.name, Committed, true) in s'.runs
    {
      assert Run(e.stream, e.name, Committed, true) in s.runs;
    }
  }

  /** Releasing a name that has a row concerns no holder. */
  lemma ReleaseKeepsInv(s: System, name: string)
    requires Inv(s) && Projected(s.shared, name)
    ensures Inv(s.(shared := ReleaseValue(s.shared, name)))
  {
    var s' := s.(shared := ReleaseValue(s.shared, name));
    forall n
      ensures AtMostOneHolder(s', n)
    {
      assert AtMostOneHolder(s, n);
      ReleaseEffect(s.shared, name, n);
    }
    assert forall r :: r in s.runs ==> RunOk(s, r) && RunOk(s', r);
    assert forall d :: d in s.deliveries ==> DeliveryOk(s, d) && DeliveryOk(s', d);
  }

  /** The name of a committing run was never committed before: its row does not exist yet, so the
      run is the only one that ever held the reservation. */
  lemma CommitIsFirst(s: System, i: nat, e: Created)
    requires Inv(s) && i < |s.runs| && s.runs[i].phase.Committing? && e in s.shared.committed
    ensures e.name != s.runs[i].name && e.stream != s.runs[i].stream
  {
    assert RunOk(s, s.runs[i]) && AtMostOneHolder(s, s.runs[i].name);
    var earlier := Run(e.stream, e.name, Committed, true);
    var j :| 0 <= j < |s.runs| && s.runs[j] == earlier;
    assert i < j || j < i;
  }

  lemma CommitKeepsInv(s: System, i: nat)
    requires Inv(s) && i < |s.runs| && s.runs[i].phase.Committing?
    ensures Inv(StepRun(s, i))
  {
    var r := s.runs[i];
    var r' := r.(phase := Committed);
    var s' := StepRun(s, i);
    assert RunOk(s, r);
    assert s'.runs == s.runs[i := r'];
    OthersStay(s.runs, i, r');
    forall name
      ensures AtMostOneHolder(s', name)
    {
      assert AtMostOneHolder(s, name);
    }
    forall x | x in s'.runs
      ensures RunOk(s', x)
    {
      assert x in s.runs ==> RunOk(s, x);
    }
    assert forall d :: d in s.deliveries ==> DeliveryOk(s, d) && DeliveryOk(s', d);
    forall e | e in s.shared.committed
      ensures e.name != r.name && e.stream != r.stream && Run(e.stream, e.name, Committed, true) in s'.runs
    {
      CommitIsFirst(s, i, e);
      assert Run(e.stream, e.name, Committed, true) in s.runs;
    }
    forall e | e in s'.shared.committed
      ensures Run(e.stream, e.name, Committed, true) in s'.runs
    {
    }
  }

  lemma SaveKeepsInv(s: System, i: nat)
    requires Inv(s) && i < |s.deliveries| && s.deliveries[i].phase.Saving?
    ensures Inv(StepDelivery(s, i))
  {
    var d := s.deliveries[i];
    var s' := StepDelivery(s, i);
    assert DeliveryOk(s, d);
    var rows, rows' := s.shared.rows, s'.shared.rows;
    assert d.stream in rows ==> rows[d.stream] == d.name;
    assert rows'[d.stream] == d.name;
    assert forall stream :: stream in rows ==> stream in rows' && rows'[stream] == rows[stream];
    assert forall n :: Projected(s.shared, n) ==> Projected(s'.shared, n);
    forall n
      ensures AtMostOneHolder(s', n)
    {
      assert AtMostOneHolder(s, n);
    }
    forall r | r in s'.runs
      ensures RunOk(s', r)
    {
      assert RunOk(s, r);
      if r.phase.Committing? && r.name == d.name {
        var k :| 0 <= k < |s.runs| && s.runs[k] == r;
        CommitIsFirst(s, k, Created(d.stream, d.name));
      }
    }
    forall x | x in s'.deliveries
      ensures DeliveryOk(s', x)
    {
      assert x in s.deliveries ==> DeliveryOk(s, x);
    }
  }

  lemma DeliveryMovesKeepInv(s: System, ds: seq<Delivery>)
    requires Inv(s)
    requires forall d :: d in ds ==> DeliveryOk(s, d)
    ensures Inv(s.(deliveries := ds))
  {
    var s' := s.(deliveries := ds);
    forall name
      ensures AtMostOneHolder(s', name)
    {
      assert AtMostOneHolder(s, name);
    }
    hide AtMostOneHolder;
    forall r | r in s.runs
      ensures RunOk(s', r)
    {
      assert RunOk(s, r);
    }
    forall d | d in ds
      ensures DeliveryOk(s', d)
    {
      assert DeliveryOk(s, d);
    }
  }

  lemma StepKeepsInv(s: System, l: Label)
    requires Inv(s)
    ensures Inv(Step(s, l))
  {
    match l
    case Request(stream, name) => RequestKeepsInv(s, stream, name);
    case Advance(i) =>
      if i < |s.runs| {
        RunStepKeepsInv(s, i);
      }
    case Crash(i) =>
      if i < |s.runs| && !s.runs[i].phase.Committed? {
        assert RunOk(s, s.runs[i]);
        MovesKeepInv(s, i, s.runs[i].(phase := Crashed));
      }
    case Deliver(k) =>
      if k < |s.shared.committed| {
        NameOfCommitted(s.shared.committed, s.shared.committed[k].stream);
        DeliveryMovesKeepInv(s, Step(s, l).deliveries);
      }
    case AdvanceDelivery(i) =>
      if i < |s.deliveries| {
        DeliveryStepKeepsInv(s, i);
      }
    case LoseDelivery(i) =>
      if i < |s.deliveries| {
        assert DeliveryOk(s, s.deliveries[i]);
        DeliveryMovesKeepInv(s, Step(s, l).deliveries);
      }
  }

  lemma RequestKeepsInv(s: System, stream: Id, name: string)
    requires Inv(s)
    ensures Inv(Step(s, Request(stream, name)))
  {
    var s' := Step(s, Request(stream, name));
    if FreshStream(s, stream) {
      forall n
        ensures AtMostOneHolder(s', n)
      {
        assert AtMostOneHolder(s, n);
      }
      assert forall r :: r in s.runs ==> RunOk(s, r) && RunOk(s', r);
      assert forall d :: d in s.deliveries ==> DeliveryOk(s, d) && DeliveryOk(s', d);
      assert forall r :: r in s.runs ==> r in s'.runs;
    }
  }

  lemma RunStepKeepsInv(s: System, i: nat)
    requires Inv(s) && i < |s.runs|
    ensures Inv(StepRun(s, i))
  {
    var r := s.runs[i];
    assert RunOk(s, r);
    match r.phase
    case Reserving =>
      if Reserved(s.shared, r.name) {
        MovesKeepInv(s, i, r.(phase := Refused));
      } else {
        ReserveKeepsInv(s, i);
      }
    case Checking =>
      MovesKeepInv(s, i, r.(phase := if Projected(s.shared, r.name) then Releasing else Committing));
    case Releasing =>
      ReleaseKeepsInv(s, r.name);
      MovesKeepInv(s.(shared := ReleaseValue(s.shared, r.name)), i, r.(phase := Refused));
    case Committing => CommitKeepsInv(s, i);
    case _ =>
  }

  lemma DeliveryStepKeepsInv(s: System, i: nat)
    requires Inv(s) && i < |s.deliveries|
    ensures Inv(StepDelivery(s, i))
  {
    var d := s.deliveries[i];
    assert DeliveryOk(s, d);
    if d.phase.Saving? {
      SaveKeepsInv(s, i);
    } else if d.phase.Freeing? {
      ReleaseKeepsInv(s, d.name);
      var s' := s.(shared := ReleaseValue(s.shared, d.name));
      assert forall x :: x in s.deliveries ==> DeliveryOk(s', x);
      DeliveryMovesKeepInv(s', StepDelivery(s, i).deliveries);
    }
  }

  lemma {:induction false} ReachableInv(ls: seq<Label>)
    ensures Inv(Exec(ls))
  {
    if ls != [] {
      ReachableInv(ls[..|ls| - 1]);
      StepKeepsInv(Exec(ls[..|ls| - 1]), ls[|ls| - 1]);
    }
  }

  /** Name uniqueness: in every interleaving, with crashes anywhere and events delivered any number
      of times, no name is ever committed twice. */
  lemma NamesAreUnique(ls: seq<Label>, s: System, i: nat, j: nat)
    requires s == Exec(ls) && i < j < |s.shared.committed|
    ensures s.shared.committed[i].name != s.shared.committed[j].name
  {
    ReachableInv(ls);
  }

  /** Until a row for the name exists, at most one run has ever obtained its reservation. */
  lemma OneHolderUntilProjected(ls: seq<Label>, s: System, name: string, i: nat, j: nat)
    requires s == Exec(ls) && i < |s.runs| && j < |s.runs|
    requires s.runs[i].name == name && s.runs[j].name == name
    requires s.runs[i].obtained && s.runs[j].obtained && !Projected(s.shared, name)
    ensures i == j && Reserved(s.shared, name)
  {
    ReachableInv(ls);
    assert AtMostOneHolder(s, name);
    assert s.runs[i] in s.runs;
  }

  // ---- No reservation outlives its use ----

  /** Someone still has to give the name back: a run in progress, or the first full delivery of
      its event. */
  ghost predicate Owed(s: System, name: string) {
    || (exists r :: r in s.runs && r.name == name && r.phase in {Checking, Releasing, Committing})
    || (exists e :: e in s.shared.committed && e.name == name && Delivery(e.stream, name, Settled) !in s.deliveries)
  }

  ghost predicate Benign(l: Label) {
    !l.Crash? && !l.LoseDelivery?
  }

  lemma StepKeepsOwed(s: System, l: Label, name: string)
    requires Inv(s) && Benign(l)
    requires Reserved(s.shared, name) ==> Owed(s, name)
    ensures Reserved(Step(s, l).shared, name) ==> Owed(Step(s, l), name)
  {
    var s' := Step(s, l);
    if Reserved(s'.shared, name) {
      match l
      case Advance(i) =>
        if i < |s.runs| {
          RunKeepsOwed(s, i, name);
        }
      case AdvanceDelivery(i) =>
        if i < |s.deliveries| {
          DeliveryKeepsOwed(s, i, name);
        }
      case Request(_, _) =>
        assert forall r :: r in s.runs ==> r in s'.runs;
      case Deliver(_) =>
        assert forall e :: Delivery(e, name, Settled) in s'.deliveries ==> Delivery(e, name, Settled) in s.deliveries;
      case _ =>
    }
  }

  lemma RunKeepsOwed(s: System, i: nat, name: string)
    requires Inv(s) && i < |s.runs|
    requires Reserved(s.shared, name) ==> Owed(s, name)
    requires Reserved(StepRun(s, i).shared, name)
    ensures Owed(StepRun(s, i), name)
  {
    var r := s.runs[i];
    if r.phase.Committing? && r.name == name {
      CommitOwes(s, i);
    } else {
      hide Inv, Reserved;
      var s' := StepRun(s, i);
      ReserveEffect(s.shared, r.name, name);
      ReleaseEffect(s.shared, r.name, name);
      OthersStay(s.runs, i, s'.runs[i]);
      assert s'.runs[i] in s'.runs;
      if Reserved(s.shared, name) {
        if x :| x in s.runs && x.name == name && x.phase in {Checking, Releasing, Committing} {
          assert x != r ==> x in s'.runs;
        }
      }
    }
  }

  /** The event a run has just committed is not delivered yet. */
  lemma CommitOwes(s: System, i: nat)
    requires Inv(s) && i < |s.runs| && s.runs[i].phase.Committing?
    ensures Owed(StepRun(s, i), s.runs[i].name)
  {
    var r, s' := s.runs[i], StepRun(s, i);
    var e := Created(r.stream, r.name);
    assert e == s'.shared.committed[|s.shared.committed|];
    assert forall d :: d in s.deliveries ==> DeliveryOk(s, d);
    if e in s.shared.committed {
      CommitIsFirst(s, i, e);
    }
  }

  lemma DeliveryKeepsOwed(s: System, i: nat, name: string)
    requires Inv(s) && i < |s.deliveries|
    requires Reserved(s.shared, name) ==> Owed(s, name)
    requires Reserved(StepDelivery(s, i).shared, name)
    ensures Owed(StepDelivery(s, i), name)
  {
    var d := s.deliveries[i];
    var s' := StepDelivery(s, i);
    ReleaseEffect(s.shared, d.name, name);
    forall x | x in s'.deliveries && x.name == name && x.phase.Settled?
      ensures x in s.deliveries
    {
      var k :| 0 <= k < |s'.deliveries| && s'.deliveries[k] == x;
    }
  }

  lemma {:induction false} ReservedIsOwed(ls: seq<Label>, name: string)
    requires forall l :: l in ls ==> Benign(l)
    ensures Reserved(Exec(ls).shared, name) ==> Owed(Exec(ls), name)
  {
    if ls != [] {
      var front := ls[..|ls| - 1];
      ReservedIsOwed(front, name);
      ReachableInv(front);
      assert ls[|ls| - 1] in ls;
      StepKeepsOwed(Exec(front), ls[|ls| - 1], name);
    }
  }

  /** Without crashes, once every run has ended and every committed event was fully delivered, no
      name is left reserved. */
  lemma NoReservationLeaks(ls: seq<Label>, s: System, name: string)
    requires s == Exec(ls) && forall l :: l in ls ==> Benign(l)
    requires forall r :: r in s.runs ==> r.phase in {Committed, Refused}
    requires forall e :: e in s.shared.committed ==> Delivery(e.stream, e.name, Settled) in s.deliveries
    ensures !Reserved(s.shared, name)
  {
    ReservedIsOwed(ls, name);
  }

  // ---- What undisturbed runs and deliveries achieve ----

  /** From the start of a run to its end with nothing in between: the name is committed exactly when it
      is neither reserved nor projected, and then it is reserved; otherwise the run is refused, nothing
      is committed and every reservation is as before. Rows, deliveries and other runs do not move. */
  lemma RunAlone(s: System, i: nat)
    requires i < |s.runs| && s.runs[i].phase.Reserving?
    ensures var r, s' := s.runs[i], Step(Step(Step(s, Advance(i)), Advance(i)), Advance(i));
            && |s'.runs| == |s.runs| && s'.deliveries == s.deliveries && s'.shared.rows == s.shared.rows
            && (forall j :: 0 <= j < |s.runs| && j != i ==> s'.runs[j] == s.runs[j])
            && if !Reserved(s.shared, r.name) && !Projected(s.shared, r.name) then
                 && s'.shared.committed == s.shared.committed + [Created(r.stream, r.name)]
                 && s'.runs[i] == Run(r.stream, r.name, Committed, true)
                 && forall n :: Reserved(s'.shared, n) <==> Reserved(s.shared, n) || n == r.name
               else
                 && s'.shared.committed == s.shared.committed
                 && s'.runs[i].phase.Refused?
                 && forall n :: Reserved(s'.shared, n) <==> Reserved(s.shared, n)
  {
    var r := s.runs[i];
    var held := ReserveValue(s.shared, r.name).0;
    HeldAndReleased(s.shared, r.name);
    hide Reserved, ReserveValue, ReleaseValue, Projected, CommitCreated;
    var s1 := Step(s, Advance(i));
    var s2 := Step(s1, Advance(i));
    var s3 := Step(s2, Advance(i));
    if Reserved(s.shared, r.name) {
      assert s1 == s.(shared := held, runs := s.runs[i := r.(phase := Refused)]);
      assert s3 == s1;
    } else {
      var obtained := r.(phase := Checking, obtained := true);
      assert s1 == s.(shared := held, runs := s.runs[i := obtained]);
      SameRows(s.shared, held, r.name);
      if Projected(s.shared, r.name) {
        assert s2 == s1.(runs := s1.runs[i := obtained.(phase := Releasing)]);
        assert s3 == s2.(shared := ReleaseValue(held, r.name), runs := s2.runs[i := obtained.(phase := Refused)]);
      } else {
        assert s2 == s1.(runs := s1.runs[i := obtained.(phase := Committing)]);
        assert s3 == s2.(shared := CommitCreated(held, r.stream, r.name), runs := s2.runs[i := obtained.(phase := Committed)]);
        CommitEffect(held, r.stream, r.name);
      }
    }
  }

  lemma SameRows(sh: Shared, sh': Shared, name: string)
    requires sh.rows == sh'.rows
    ensures Projected(sh, name) <==> Projected(sh', name)
  {
  }

  lemma CommitEffect(sh: Shared, stream: Id, name: string)
    ensures var sh' := CommitCreated(sh, stream, name);
            && sh'.committed == sh.committed + [Created(stream, name)] && sh'.rows == sh.rows
            && forall n :: Reserved(sh', n) <==> Reserved(sh, n)
  {
  }

  lemma HeldAndReleased(sh: Shared, name: string)
    ensures var (held, isNew) := ReserveValue(sh, name);
            && (isNew <==> !Reserved(sh, name))
            && held.rows == sh.rows && held.committed == sh.committed
            && (!isNew ==> forall n :: Reserved(held, n) <==> Reserved(sh, n))
            && (forall n :: Reserved(held, n) <==> Reserved(sh, n) || n == name)
            && (forall n :: Reserved(ReleaseValue(held, name), n) <==> Reserved(sh, n) && n != name)
            && ReleaseValue(held, name).rows == sh.rows && ReleaseValue(held, name).committed == sh.committed
  {
    var held := ReserveValue(sh, name).0;
    ReserveEffect(sh, name, name);
    forall n
      ensures Reserved(held, n) <==> Reserved(sh, n) || n == name
      ensures Reserved(ReleaseValue(held, name), n) <==> Reserved(sh, n) && n != name
    {
      ReserveEffect(sh, name, n);
      ReleaseEffect(held, name, n);
    }
  }

  /** The handler object does what the three steps do. */
  method ExecuteAlone(handler: CreateInventoryHandler, stream: Id, name: string, ghost s: System, ghost i: nat)
    returns (created: bool)
    requires i < |s.runs| && s.runs[i].phase.Reserving? && s.runs[i].stream == stream && s.runs[i].name == name
    requires handler.View() == s.shared
    modifies handler`committed, handler.cache`sets
    ensures var s' := Step(Step(Step(s, Advance(i)), Advance(i)), Advance(i));
            && handler.View() == s'.shared
            && (created <==> s'.runs[i].phase.Committed?)
            && (created <==> !Reserved(s.shared, name) && !Projected(s.shared, name))
  {
    RunAlone(s, i);
    ReserveEffect(s.shared, name, name);
    created := handler.Execute(stream, name);
  }

  /** A full delivery with nothing in between saves the name of its event as the row of its stream and
      gives exactly that name back. */
  lemma DeliveryAlone(s: System, k: nat)
    requires Inv(s) && k < |s.shared.committed|
    ensures var e, d := s.shared.committed[k], |s.deliveries|;
            var s' := Step(Step(Step(s, Deliver(k)), AdvanceDelivery(d)), AdvanceDelivery(d));
            && s'.shared.rows == s.shared.rows[e.stream := e.name]
            && s'.shared.committed == s.shared.committed && s'.runs == s.runs
            && s'.deliveries == s.deliveries + [Delivery(e.stream, e.name, Settled)]
            && forall n :: Reserved(s'.shared, n) <==> Reserved(s.shared, n) && n != e.name
  {
    var e := s.shared.committed[k];
    NameIsItsOwn(s.shared.committed, k);
    var saved := SaveRow(s.shared, e.stream, e.name);
    forall n
      ensures Reserved(ReleaseValue(saved, e.name), n) <==> Reserved(s.shared, n) && n != e.name
    {
      ReleaseEffect(saved, e.name, n);
    }
    var s1 := Step(s, Deliver(k));
    assert s1.deliveries == s.deliveries + [Delivery(e.stream, e.name, Saving)];
    var s2 := Step(s1, AdvanceDelivery(|s.deliveries|));
    assert s2.deliveries == s.deliveries + [Delivery(e.stream, e.name, Freeing)];
  }

  lemma NameIsItsOwn(committed: seq<Created>, k: nat)
    requires NoneTwice(committed) && k < |committed|
    ensures NameOf(committed, committed[k].stream) == Some(committed[k].name)
  {
    NameOfCommitted(committed, committed[k].stream);
    assert committed[k] in committed;
  }

  /** Nothing is reserved that no run ever reserved. */
  lemma {:induction false} ReservedWasObtained(ls: seq<Label>, s: System, name: string)
    requires s == Exec(ls) && Reserved(s.shared, name)
    ensures exists r :: r in s.runs && r.name == name && r.obtained
  {
    if ls != [] {
      var before, l := Exec(ls[..|ls| - 1]), ls[|ls| - 1];
      if Reserved(before.shared, name) {
        ReservedWasObtained(ls[..|ls| - 1], before, name);
        var r :| r in before.runs && r.name == name && r.obtained;
        ObtainedStays(before, l, r);
      } else {
        NewlyReserved(before, l, name);
      }
    }
  }

  lemma ObtainedStays(s: System, l: Label, r: Run)
    requires r in s.runs && r.obtained
    ensures exists x :: x in Step(s, l).runs && x.name == r.name && x.obtained
  {
    var j :| 0 <= j < |s.runs| && s.runs[j] == r;
    var x := Step(s, l).runs[j];
    assert x in Step(s, l).runs && x.name == r.name && x.obtained;
  }

  lemma NewlyReserved(s: System, l: Label, name: string)
    requires !Reserved(s.shared, name) && Reserved(Step(s, l).shared, name)
    ensures exists x :: x in Step(s, l).runs && x.name == name && x.obtained
  {
    match l
    case Advance(i) =>
      if i < |s.runs| {
        ReserveEffect(s.shared, s.runs[i].name, name);
        ReleaseEffect(s.shared, s.runs[i].name, name);
        assert Step(s, l).runs[i] in Step(s, l).runs;
      }
    case AdvanceDelivery(i) =>
      if i < |s.deliveries| {
        ReleaseEffect(s.shared, s.deliveries[i].name, name);
      }
    case _ =>
  }

  /** In every reachable state the run that reserves next obtains the name, if no run ever did and no
      row has it; and it obtains nothing that is reserved. */
  lemma FreeNameIsObtained(ls: seq<Label>, s: System, i: nat)
    requires s == Exec(ls) && i < |s.runs| && s.runs[i].phase.Reserving?
    ensures var r := Step(s, Advance(i)).runs[i];
            && (r.phase.Checking? && r.obtained <==> !Reserved(s.shared, r.name))
            && (r.phase.Refused? <==> Reserved(s.shared, r.name))
    ensures (forall r :: r in s.runs && r.name == s.runs[i].name ==> !r.obtained) ==>
              Step(s, Advance(i)).runs[i].obtained
  {
    ReserveEffect(s.shared, s.runs[i].name, s.runs[i].name);
    if Reserved(s.shared, s.runs[i].name) {
      ReservedWasObtained(ls, s, s.runs[i].name);
    }
  }

  /** From every reachable state a request for a name that no run ever reserved and no row has, run to
      its end, commits it. */
  lemma FreeNameIsCreated(ls: seq<Label>, s: System, stream: Id, name: string)
    requires s == Exec(ls) && (forall r :: r in s.runs ==> r.stream != stream)
    requires (forall r :: r in s.runs && r.name == name ==> !r.obtained) && name !in s.shared.rows.Values
    ensures var i := |s.runs|;
            var s' := Exec(ls + [Request(stream, name)] + [Advance(i)] + [Advance(i)] + [Advance(i)]);
            s'.shared.committed == s.shared.committed + [Created(stream, name)]
  {
    var i := |s.runs|;
    var asked := Step(s, Request(stream, name));
    assert asked.runs[i] == Run(stream, name, Reserving, false);
    if Reserved(s.shared, name) {
      ReservedWasObtained(ls, s, name);
    }
    RunAlone(asked, i);
    hide Step;
    ExecPush(ls, Request(stream, name));
    ExecPush(ls + [Request(stream, name)], Advance(i));
    ExecPush(ls + [Request(stream, name)] + [Advance(i)], Advance(i));
    ExecPush(ls + [Request(stream, name)] + [Advance(i)] + [Advance(i)], Advance(i));
  }

  lemma ExecPush(ls: seq<Label>, l: Label)
    ensures Exec(ls + [l]) == Step(Exec(ls), l)
  {
    assert (ls + [l])[..|ls|] == ls;
  }
}
