/** The two caches: `MemoryCache` keeps maps, `TypeORMCache` keeps rows in three tables.

    Values are the JSON texts that `BaseCache` hands down; encoding is injective, so texts stand
    for values. A `Set` lists its values in insertion order. */
module Caches {
  import opened Wrappers

  /** What a caller sees of one operation. */
  datatype Op =
    | AddToSet(key: string, value: string)
    | RemoveFromSet(key: string, value: string)
    | ReadFromSet(key: string)
    | DropSet(key: string)
    | SetKey(key: string, value: string)
    | GetKey(key: string)
    | DropKey(key: string)

  datatype Answer = Void | Flag(b: bool) | Text(t: Option<string>) | Values(vs: set<string>)

  // ---- MemoryCache ----

  type Sets = map<string, seq<string>>

  datatype Memory = Memory(keyValue: map<string, string>, sets: Sets)

  function Members(sets: Sets, key: string): seq<string> {
    if key in sets then sets[key] else []
  }

  /** `handleAddToSet`: the new sets and whether the value was new. */
  function Add(sets: Sets, key: string, value: string): (Sets, bool) {
    if value in Members(sets, key) then (sets, false)
    else (sets[key := Members(sets, key) + [value]], true)
  }

  function Remove(values: seq<string>, value: string): seq<string> {
    if values == [] then []
    else if values[|values| - 1] == value then Remove(values[..|values| - 1], value)
    else Remove(values[..|values| - 1], value) + [values[|values| - 1]]
  }

  function ToSet(values: seq<string>): set<string> {
    set v | v in values
  }

  function MemoryStep(m: Memory, op: Op): (Memory, Answer) {
    match op
    case AddToSet(key, value) => (m.(sets := Add(m.sets, key, value).0), Flag(Add(m.sets, key, value).1))
    case RemoveFromSet(key, value) =>
      if key !in m.sets then (m, Flag(false))
      else (m.(sets := m.sets[key := Remove(m.sets[key], value)]), Flag(value in m.sets[key]))
    case ReadFromSet(key) => (m, Values(ToSet(Members(m.sets, key))))
    case DropSet(key) => (m.(sets := m.sets - {key}), Void)
    case SetKey(key, value) => (m.(keyValue := m.keyValue[key := value]), Flag(true))
    case GetKey(key) => (m, Text(if key in m.keyValue then Some(m.keyValue[key]) else None))
    case DropKey(key) => (m.(keyValue := m.keyValue - {key}), Void)
  }

  lemma ToSetPush(values: seq<string>, v: string)
    ensures ToSet(values + [v]) == ToSet(values) + {v}
  {
  }

  lemma {:induction false} RemoveMembers(values: seq<string>, value: string)
    ensures ToSet(Remove(values, value)) == ToSet(values) - {value}
  {
    if values != [] {
      var front, last := values[..|values| - 1], values[|values| - 1];
      RemoveMembers(front, value);
      assert values == front + [last];
      ToSetPush(front, last);
      ToSetPush(Remove(front, value), last);
    }
  }

  class MemoryCache {
    var keyValue: map<string, string>
    var sets: Sets

    function View(): Memory
      reads this
    {
      Memory(keyValue, sets)
    }

    constructor ()
      ensures View() == Memory(map[], map[])
    {
      keyValue, sets := map[], map[];
    }

    method HandleAddToSet(key: string, value: string) returns (isNew: bool)
      modifies this`sets
      ensures MemoryStep(old(View()), AddToSet(key, value)) == (View(), Flag(isNew))
    {
      if key !in sets {
        sets := sets[key := []];
      }
      isNew := value !in sets[key];
      if isNew {
        sets := sets[key := sets[key] + [value]];
        assert sets == old(sets)[key := Members(old(sets), key) + [value]];
      } else {
        assert sets == old(sets);
      }
    }

    method HandleRemoveFromSet(key: string, value: string) returns (wasThere: bool)
      modifies this`sets
      ensures MemoryStep(old(View()), RemoveFromSet(key, value)) == (View(), Flag(wasThere))
    {
      if key !in sets {
        return false;
      }
      wasThere := value in sets[key];
      var kept: seq<string> := [];
      for i := 0 to |sets[key]|
        invariant sets == old(sets)
        invariant kept == Remove(sets[key][..i], value)
      {
        assert sets[key][..i + 1][..i] == sets[key][..i];
        if sets[key][i] != value {
          kept := kept + [sets[key][i]];
        }
      }
      assert sets[key][..|sets[key]|] == sets[key];
      sets := sets[key := kept];
    }

    method HandleReadFromSet(key: string) returns (values: seq<string>)
      ensures values == Members(sets, key)
      ensures MemoryStep(View(), ReadFromSet(key)) == (View(), Values(ToSet(values)))
    {
      values := if key in sets then sets[key] else [];
    }

    method DropSet(key: string)
      modifies this`sets
      ensures MemoryStep(old(View()), Op.DropSet(key)) == (View(), Void)
    {
      sets := sets - {key};
    }

    method HandleSetKey(key: string, value: string) returns (done: bool)
      modifies this`keyValue
      ensures MemoryStep(old(View()), SetKey(key, value)) == (View(), Flag(done))
    {
      keyValue := keyValue[key := value];
      done := true;
    }

    method HandleGetKey(key: string) returns (value: Option<string>)
      ensures MemoryStep(View(), GetKey(key)) == (View(), Text(value))
    {
      value := if key in keyValue then Some(keyValue[key]) else None;
    }

    method DropKey(key: string)
      modifies this`keyValue
      ensures MemoryStep(old(View()), Op.DropKey(key)) == (View(), Void)
    {
      keyValue := keyValue - {key};
    }
  }

  // ---- TypeORMCache ----

  /** `formatKey`: sha1 is modelled as an injective function. */
  datatype Digest = Sha1(key: string)

  datatype SetValue = SetValue(id: nat, setKey: Digest, value: string)

  /** The tables KeyValue and SetRoot, by primary key, and SetValue. */
  datatype Tables = Tables(keyValues: map<Digest, string>, setRoots: set<Digest>, setValues: set<SetValue>, nextId: nat)

  function Matching(rows: set<SetValue>, setKey: Digest, value: string): set<SetValue> {
    set r | r in rows && r.setKey == setKey && r.value == value
  }

  function OfSet(rows: set<SetValue>, setKey: Digest): set<SetValue> {
    set r | r in rows && r.setKey == setKey
  }

  function ValuesOf(rows: set<SetValue>): set<string> {
    set r | r in rows :: r.value
  }

  function TablesStep(t: Tables, op: Op): (Tables, Answer) {
    match op
    case AddToSet(key, value) =>
      if Matching(t.setValues, Sha1(key), value) != {} then (t, Flag(false))
      else (t.(setRoots := t.setRoots + {Sha1(key)},
               setValues := t.setValues + {SetValue(t.nextId, Sha1(key), value)},
               nextId := t.nextId + 1), Flag(true))
    case RemoveFromSet(key, value) =>
      var found := Matching(t.setValues, Sha1(key), value);
      (t.(setValues := t.setValues - found), Flag(found != {}))
    case ReadFromSet(key) => (t, Values(ValuesOf(OfSet(t.setValues, Sha1(key)))))
    case DropSet(key) =>
      (t.(setValues := t.setValues - OfSet(t.setValues, Sha1(key)), setRoots := t.setRoots - {Sha1(key)}), Void)
    case SetKey(key, value) => (t.(keyValues := t.keyValues[Sha1(key) := value]), Flag(true))
    case GetKey(key) => (t, Text(if Sha1(key) in t.keyValues then Some(t.keyValues[Sha1(key)]) else None))
    case DropKey(key) => (t.(keyValues := t.keyValues - {Sha1(key)}), Void)
  }

  /** No id twice, no (setKey, value) twice, and every value row has its root. */
  ghost predicate TableInvariant(t: Tables) {
    && (forall r, r' :: r in t.setValues && r' in t.setValues && r.id == r'.id ==> r == r')
    && (forall r, r' :: r in t.setValues && r' in t.setValues && r.setKey == r'.setKey && r.value == r'.value ==> r == r')
    && (forall r :: r in t.setValues ==> r.setKey in t.setRoots && r.id < t.nextId)
  }

  lemma TableInvariantKept(t: Tables, op: Op)
    requires TableInvariant(t)
    ensures TableInvariant(TablesStep(t, op).0)
  {
    if op.AddToSet? {
      forall r | r in t.setValues && r.setKey == Sha1(op.key) && r.value == op.value
        ensures Matching(t.setValues, Sha1(op.key), op.value) != {}
      {
        assert r in Matching(t.setValues, Sha1(op.key), op.value);
      }
    }
  }

  lemma TakeRow(t: Tables, setKey: Digest, rows: set<SetValue>, row: SetValue, values: seq<string>)
    requires TableInvariant(t) && rows <= OfSet(t.setValues, setKey) && row in rows
    requires ToSet(values) == ValuesOf(OfSet(t.setValues, setKey) - rows)
    requires |values| == |ToSet(values)|
    ensures ToSet(values + [row.value]) == ValuesOf(OfSet(t.setValues, setKey) - (rows - {row}))
    ensures |values| + 1 == |ToSet(values + [row.value])|
    ensures |rows - {row}| == |rows| - 1
  {
    var done := OfSet(t.setValues, setKey) - rows;
    assert row.value !in ValuesOf(done);
    ToSetPush(values, row.value);
    assert OfSet(t.setValues, setKey) - (rows - {row}) == done + {row};
    assert ValuesOf(done + {row}) == ValuesOf(done) + {row.value};
  }

  class TypeORMCache {
    var keyValues: map<Digest, string>
    var setRoots: set<Digest>
    var setValues: set<SetValue>
    /** The next generated id of a SetValue row. */
    var nextId: nat

    function View(): Tables
      reads this
    {
      Tables(keyValues, setRoots, setValues, nextId)
    }

    ghost predicate Valid()
      reads this
    {
      TableInvariant(View())
    }

    constructor ()
      ensures Valid() && View() == Tables(map[], {}, {}, 0)
    {
      keyValues, setRoots, setValues, nextId := map[], {}, {}, 0;
    }

    /** `findOne({ where: { setKey, value } })`. */
    method FindOne(setKey: Digest, value: string) returns (r: Option<SetValue>)
      ensures r.None? <==> Matching(setValues, setKey, value) == {}
      ensures r.Some? ==> r.value in Matching(setValues, setKey, value)
    {
      var found := Matching(setValues, setKey, value);
      if found == {} {
        return None;
      }
      var entity :| entity in found;
      return Some(entity);
    }

    method HandleAddToSet(key: string, value: string) returns (isNew: bool)
      requires Valid()
      modifies this
      ensures Valid()
      ensures TablesStep(old(View()), AddToSet(key, value)) == (View(), Flag(isNew))
    {
      TableInvariantKept(View(), AddToSet(key, value));
      var existing := FindOne(Sha1(key), value);
      if existing.Some? {
        return false;
      }
      if Sha1(key) in setRoots {
        assert setRoots + {Sha1(key)} == setRoots;
        setValues := setValues + {SetValue(nextId, Sha1(key), value)};
      } else {
        setRoots := setRoots + {Sha1(key)};
        setValues := setValues + {SetValue(nextId, Sha1(key), value)};
      }
      nextId := nextId + 1;
      return true;
    }

    /** Removes the one entity found, by its id. */
    method HandleRemoveFromSet(key: string, value: string) returns (wasThere: bool)
      requires Valid()
      modifies this`setValues
      ensures Valid()
      ensures TablesStep(old(View()), RemoveFromSet(key, value)) == (View(), Flag(wasThere))
    {
      TableInvariantKept(View(), RemoveFromSet(key, value));
      var entity := FindOne(Sha1(key), value);
      if entity.None? {
        assert setValues - Matching(setValues, Sha1(key), value) == setValues;
        return false;
      }
      setValues := set r | r in setValues && r.id != entity.value.id;
      assert setValues == old(setValues) - Matching(old(setValues), Sha1(key), value);
      return true;
    }

    /** One value for each row of the set, none twice. */
    method HandleReadFromSet(key: string) returns (values: seq<string>)
      requires Valid()
      ensures TablesStep(View(), ReadFromSet(key)) == (View(), Values(ToSet(values)))
      ensures |values| == |OfSet(setValues, Sha1(key))| == |ToSet(values)|
    {
      ghost var all := OfSet(setValues, Sha1(key));
      var rows := OfSet(setValues, Sha1(key));
      values := [];
      assert all - rows == {} && ValuesOf({}) == {};
      while rows != {}
        invariant rows <= all
        invariant ToSet(values) == ValuesOf(all - rows)
        invariant |values| + |rows| == |all| && |values| == |ToSet(values)|
        decreases |rows|
      {
        var row :| row in rows;
        TakeRow(View(), Sha1(key), rows, row, values);
        values := values + [row.value];
        rows := rows - {row};
      }
      assert all - rows == all;
    }

    method DropSet(key: string)
      requires Valid()
      modifies this
      ensures Valid()
      ensures TablesStep(old(View()), Op.DropSet(key)) == (View(), Void)
    {
      TableInvariantKept(View(), Op.DropSet(key));
      setValues := setValues - OfSet(setValues, Sha1(key));
      setRoots := setRoots - {Sha1(key)};
    }

    method HandleSetKey(key: string, value: string) returns (done: bool)
      requires Valid()
      modifies this`keyValues
      ensures Valid()
      ensures TablesStep(old(View()), SetKey(key, value)) == (View(), Flag(done))
    {
      keyValues := keyValues[Sha1(key) := value];
      done := true;
    }

    method HandleGetKey(key: string) returns (value: Option<string>)
      ensures TablesStep(View(), GetKey(key)) == (View(), Text(value))
    {
      value := if Sha1(key) in keyValues then Some(keyValues[Sha1(key)]) else None;
    }

    method DropKey(key: string)
      requires Valid()
      modifies this`keyValues
      ensures Valid()
      ensures TablesStep(old(View()), Op.DropKey(key)) == (View(), Void)
    {
      keyValues := keyValues - {Sha1(key)};
    }
  }

  // ---- Refinement ----

  /** Both caches hold the same keys and, key by key, the same sets; a root row exists exactly
      where the map has a set, even an empty one. */
  ghost predicate Represents(t: Tables, m: Memory) {
    && (forall key :: key in m.keyValue <==> Sha1(key) in t.keyValues)
    && (forall key :: key in m.keyValue ==> t.keyValues[Sha1(key)] == m.keyValue[key])
    && (forall key :: key in m.sets <==> Sha1(key) in t.setRoots)
    && (forall key :: ToSet(Members(m.sets, key)) == ValuesOf(OfSet(t.setValues, Sha1(key))))
  }

  lemma MembershipAgrees(t: Tables, m: Memory, key: string, value: string)
    requires Represents(t, m)
    ensures value in Members(m.sets, key) <==> Matching(t.setValues, Sha1(key), value) != {}
  {
    var mine, rows := ToSet(Members(m.sets, key)), OfSet(t.setValues, Sha1(key));
    assert value in Members(m.sets, key) <==> value in mine;
    if value in ValuesOf(rows) {
      var r :| r in rows && r.value == value;
      assert r in Matching(t.setValues, Sha1(key), value);
    }
    if r :| r in Matching(t.setValues, Sha1(key), value) {
      assert r in rows;
    }
  }

  /** One operation: equal answers, and the caches still agree. */
  lemma StepRefines(t: Tables, m: Memory, op: Op)
    requires TableInvariant(t) && Represents(t, m)
    ensures TablesStep(t, op).1 == MemoryStep(m, op).1
    ensures Represents(TablesStep(t, op).0, MemoryStep(m, op).0)
  {
    match op
    case AddToSet(key, value) => AddRefines(t, m, key, value);
    case RemoveFromSet(key, value) => RemoveRefines(t, m, key, value);
    case DropSet(key) => DropRefines(t, m, key);
    case _ =>
  }

  lemma AddRefines(t: Tables, m: Memory, key: string, value: string)
    requires Represents(t, m)
    ensures TablesStep(t, AddToSet(key, value)).1 == MemoryStep(m, AddToSet(key, value)).1
    ensures Represents(TablesStep(t, AddToSet(key, value)).0, MemoryStep(m, AddToSet(key, value)).0)
  {
    MembershipAgrees(t, m, key, value);
    if value !in Members(m.sets, key) {
      var t', m' := TablesStep(t, AddToSet(key, value)).0, MemoryStep(m, AddToSet(key, value)).0;
      var row := SetValue(t.nextId, Sha1(key), value);
      forall k
        ensures ToSet(Members(m'.sets, k)) == ValuesOf(OfSet(t'.setValues, Sha1(k)))
      {
        if k == key {
          ToSetPush(Members(m.sets, key), value);
          assert OfSet(t'.setValues, Sha1(k)) == OfSet(t.setValues, Sha1(k)) + {row};
          assert ValuesOf(OfSet(t.setValues, Sha1(k)) + {row}) == ValuesOf(OfSet(t.setValues, Sha1(k))) + {value};
        } else {
          assert OfSet(t'.setValues, Sha1(k)) == OfSet(t.setValues, Sha1(k));
        }
      }
    }
  }

  lemma RemoveRefines(t: Tables, m: Memory, key: string, value: string)
    requires Represents(t, m)
    ensures TablesStep(t, RemoveFromSet(key, value)).1 == MemoryStep(m, RemoveFromSet(key, value)).1
    ensures Represents(TablesStep(t, RemoveFromSet(key, value)).0, MemoryStep(m, RemoveFromSet(key, value)).0)
  {
    MembershipAgrees(t, m, key, value);
    var t', m' := TablesStep(t, RemoveFromSet(key, value)).0, MemoryStep(m, RemoveFromSet(key, value)).0;
    forall k
      ensures ToSet(Members(m'.sets, k)) == ValuesOf(OfSet(t'.setValues, Sha1(k)))
    {
      var before, after := OfSet(t.setValues, Sha1(k)), OfSet(t'.setValues, Sha1(k));
      if k == key {
        RemoveMembers(Members(m.sets, key), value);
        assert ValuesOf(after) == ValuesOf(before) - {value} by {
          forall v | v in ValuesOf(before) && v != value
            ensures v in ValuesOf(after)
          {
            var r :| r in before && r.value == v;
            assert r in after;
          }
        }
        if key !in m.sets {
          assert ToSet(Members(m.sets, key)) == {};
        }
      } else {
        assert after == before;
      }
    }
  }

  lemma DropRefines(t: Tables, m: Memory, key: string)
    requires Represents(t, m)
    ensures Represents(TablesStep(t, DropSet(key)).0, MemoryStep(m, DropSet(key)).0)
  {
    var t', m' := TablesStep(t, DropSet(key)).0, MemoryStep(m, DropSet(key)).0;
    forall k
      ensures ToSet(Members(m'.sets, k)) == ValuesOf(OfSet(t'.setValues, Sha1(k)))
    {
      assert OfSet(t'.setValues, Sha1(k)) == if k == key then {} else OfSet(t.setValues, Sha1(k));
    }
  }

  function MemoryRun(ops: seq<Op>): (Memory, seq<Answer>) {
    if ops == [] then (Memory(map[], map[]), [])
    else
      var (m, answers) := MemoryRun(ops[..|ops| - 1]);
      var (m', answer) := MemoryStep(m, ops[|ops| - 1]);
      (m', answers + [answer])
  }

  function TablesRun(ops: seq<Op>): (Tables, seq<Answer>) {
    if ops == [] then (Tables(map[], {}, {}, 0), [])
    else
      var (t, answers) := TablesRun(ops[..|ops| - 1]);
      var (t', answer) := TablesStep(t, ops[|ops| - 1]);
      (t', answers + [answer])
  }

  /** For every sequence of operations the relational cache gives the answers of the in-memory
      one, booleans, texts and read sets alike, and keeps its table invariant. */
  lemma {:induction false} RelationalCacheRefinesMemory(ops: seq<Op>)
    ensures TablesRun(ops).1 == MemoryRun(ops).1
    ensures TableInvariant(TablesRun(ops).0)
    ensures Represents(TablesRun(ops).0, MemoryRun(ops).0)
  {
    if ops == [] {
      forall key: string
        ensures ToSet(Members(map[], key)) == ValuesOf(OfSet({}, Sha1(key)))
      {
      }
    } else {
      var front, last := ops[..|ops| - 1], ops[|ops| - 1];
      RelationalCacheRefinesMemory(front);
      StepRefines(TablesRun(front).0, MemoryRun(front).0, last);
      TableInvariantKept(TablesRun(front).0, last);
    }
  }

  // ---- What a trace of operations means ----

  /** Whether the last operation that concerns a value of a set put it there. */
  predicate LiveIn(ops: seq<Op>, key: string, value: string) {
    if ops == [] then false
    else
      match ops[|ops| - 1]
      case AddToSet(k, v) => (k == key && v == value) || LiveIn(ops[..|ops| - 1], key, value)
      case RemoveFromSet(k, v) => !(k == key && v == value) && LiveIn(ops[..|ops| - 1], key, value)
      case DropSet(k) => k != key && LiveIn(ops[..|ops| - 1], key, value)
      case _ => LiveIn(ops[..|ops| - 1], key, value)
  }

  /** The text that was last set under a key, unless it was dropped since. */
  function LastSet(ops: seq<Op>, key: string): Option<string> {
    if ops == [] then None
    else
      match ops[|ops| - 1]
      case SetKey(k, v) => if k == key then Some(v) else LastSet(ops[..|ops| - 1], key)
      case DropKey(k) => if k == key then None else LastSet(ops[..|ops| - 1], key)
      case _ => LastSet(ops[..|ops| - 1], key)
  }

  lemma {:induction false} MemoryHoldsTrace(ops: seq<Op>, key: string, value: string)
    ensures value in Members(MemoryRun(ops).0.sets, key) <==> LiveIn(ops, key, value)
    ensures LastSet(ops, key)
         == if key in MemoryRun(ops).0.keyValue then Some(MemoryRun(ops).0.keyValue[key]) else None
  {
    if ops != [] {
      var front, last := ops[..|ops| - 1], ops[|ops| - 1];
      MemoryHoldsTrace(front, key, value);
      if last.RemoveFromSet? {
        var values := Members(MemoryRun(front).0.sets, last.key);
        RemoveMembers(values, last.value);
        assert value in ToSet(Remove(values, last.value)) <==> value in ToSet(values) - {last.value};
      }
    }
  }

  /** What either cache answers after any trace, in terms of the trace: whether an added value is new and
      a removed one was there, exactly the values that were added last, the text that was set last. */
  lemma AnswersFollowTrace(ops: seq<Op>, op: Op)
    ensures MemoryRun(ops + [op]).1 == MemoryRun(ops).1 + [MemoryStep(MemoryRun(ops).0, op).1]
    ensures TablesRun(ops + [op]).1 == MemoryRun(ops + [op]).1
    ensures var answer := MemoryStep(MemoryRun(ops).0, op).1;
            && (op.AddToSet? ==> answer == Flag(!LiveIn(ops, op.key, op.value)))
            && (op.RemoveFromSet? ==> answer == Flag(LiveIn(ops, op.key, op.value)))
            && (op.ReadFromSet? ==> answer.Values? && forall v :: v in answer.vs <==> LiveIn(ops, op.key, v))
            && (op.SetKey? ==> answer == Flag(true))
            && (op.GetKey? ==> answer == Text(LastSet(ops, op.key)))
            && (op.DropSet? || op.DropKey? ==> answer == Void)
  {
    assert (ops + [op])[..|ops|] == ops;
    RelationalCacheRefinesMemory(ops + [op]);
    match op
    case AddToSet(key, value) => MemoryHoldsTrace(ops, key, value);
    case RemoveFromSet(key, value) => MemoryHoldsTrace(ops, key, value);
    case ReadFromSet(key) =>
      forall v
        ensures v in ToSet(Members(MemoryRun(ops).0.sets, key)) <==> LiveIn(ops, key, v)
      {
        MemoryHoldsTrace(ops, key, v);
      }
    case GetKey(key) => MemoryHoldsTrace(ops, key, "");
    case _ =>
  }
}
