/** The log as an ordered map: what any run of Set, Remove and Reset from a new log keeps. */
module LogMap {
  import opened Results
  import opened Records
  import opened LogObject

  predicate UniqueKeys(props: seq<Property>) {
    forall i, j | 0 <= i < j < |props| :: props[i].key != props[j].key
  }

  predicate WellKept(l: Record) {
    && UniqueKeys(l.props)
    && forall k | 0 <= k < |l.props| :: NameOf(l.props[k].key).Other?
  }

  /** The map model: a header field is present when it is not empty. */
  datatype Model = Model(fields: map<Field, string>, others: map<string, string>)

  const EMPTY_MODEL := Model(map[], map[])

  ghost function PropMap(props: seq<Property>): map<string, string> {
    if props == [] then map[] else PropMap(props[1..])[props[0].key := props[0].value]
  }

  ghost function FieldMap(l: Record): map<Field, string> {
    map f | f in {FThread, FClass, FLevel, FTime, FDate, FMessage} && FieldOf(l, f) != "" :: FieldOf(l, f)
  }

  ghost function Abstract(l: Record): Model {
    Model(FieldMap(l), PropMap(l.props))
  }

  function SetField(m: map<Field, string>, f: Field, value: string): map<Field, string> {
    if value == "" then m - {f} else m[f := value]
  }

  function ModelPut(m: Model, key: string, value: string): Outcome<Model> {
    match NameOf(key)
    case Timestamp =>
      if value == "" then Ok(m.(fields := m.fields - {FDate, FTime}))
      else if Spaces(value) == 1 then
        Ok(m.(fields := SetField(SetField(m.fields, FDate, BeforeSpace(value)), FTime, AfterSpace(value))))
      else Panic
    case Named(f) => Ok(m.(fields := SetField(m.fields, f, value)))
    case Other => Ok(m.(others := m.others[key := value]))
  }

  function ModelDrop(m: Model, key: string): Model {
    match NameOf(key)
    case Timestamp => m.(fields := m.fields - {FDate, FTime})
    case Named(f) => m.(fields := m.fields - {f})
    case Other => m.(others := m.others - {key})
  }

  function FieldOrEmpty(m: Model, f: Field): string {
    if f in m.fields then m.fields[f] else ""
  }

  function ModelLookup(m: Model, key: string): Option<string> {
    match NameOf(key)
    case Timestamp => Some(FieldOrEmpty(m, FDate) + " " + FieldOrEmpty(m, FTime))
    case Named(f) => if f in m.fields then Some(m.fields[f]) else None
    case Other => if key in m.others then Some(m.others[key]) else None
  }

  predicate ModelPresent(m: Model, key: string) {
    match NameOf(key)
    case Timestamp => FDate in m.fields || FTime in m.fields
    case Named(f) => f in m.fields
    case Other => key in m.others
  }

  // The property list against the map

  lemma {:induction false} FindIsPropMap(props: seq<Property>, key: string)
    ensures Find(props, key) == if key in PropMap(props) then Some(PropMap(props)[key]) else None
  {
    if props != [] {
      FindIsPropMap(props[1..], key);
    }
  }

  lemma {:induction false} UpsertPropMap(props: seq<Property>, key: string, value: string)
    ensures PropMap(Upsert(props, key, value)) == PropMap(props)[key := value]
  {
    if props != [] {
      var p := props[0];
      if p.key == key {
        assert ([Property(key, value)] + props[1..])[1..] == props[1..];
      } else {
        UpsertPropMap(props[1..], key, value);
        assert ([p] + Upsert(props[1..], key, value))[1..] == Upsert(props[1..], key, value);
        assert PropMap(props[1..])[key := value][p.key := p.value]
            == PropMap(props[1..])[p.key := p.value][key := value];
      }
    }
  }

  lemma {:induction false} PropMapKeys(props: seq<Property>, key: string)
    ensures key in PropMap(props) <==> HasKey(props, key)
  {
    FindIsPropMap(props, key);
    FindAbsent(props, key);
  }

  lemma {:induction false} DeletePropMap(props: seq<Property>, key: string)
    requires UniqueKeys(props)
    ensures PropMap(Delete(props, key)) == PropMap(props) - {key}
  {
    if props != [] {
      var p := props[0];
      if p.key == key {
        PropMapKeys(props[1..], key);
        assert forall k | 0 <= k < |props| - 1 :: props[1..][k].key == props[k + 1].key;
        assert key !in PropMap(props[1..]);
        assert PropMap(props[1..])[key := p.value] - {key} == PropMap(props[1..]);
      } else {
        DeletePropMap(props[1..], key);
        assert ([p] + Delete(props[1..], key))[1..] == Delete(props[1..], key);
        assert (PropMap(props[1..]) - {key})[p.key := p.value] == PropMap(props[1..])[p.key := p.value] - {key};
      }
    }
  }

  /** `Get` reads the map; the timestamp is the pair of date and time, and is always reported. */
  lemma GetAgrees(l: Record, key: string)
    ensures Lookup(l, key) == ModelLookup(Abstract(l), key)
    ensures Present(l, key) <==> ModelPresent(Abstract(l), key)
  {
    FindIsPropMap(l.props, key);
    PropMapKeys(l.props, key);
  }

  // Order

  /** `Get` finds a key exactly when `Set` and `Remove` would report it, with one exception: the
      timestamp is found even when neither date nor time is set, as the text of one space. */
  lemma GetFindsExactly(l: Record, key: string)
    ensures Lookup(l, key).Some? <==> Present(l, key) || key == KEY_TIMESTAMP
    ensures key == KEY_TIMESTAMP && !Present(l, key) ==> Lookup(l, key) == Some(" ")
  {
    if NameOf(key).Other? {
      FindAbsent(l.props, key);
    }
    assert "" + " " + "" == " ";
  }

  function Others(props: seq<Property>, key: string): seq<Property> {
    if props == [] then [] else (if props[0].key == key then [] else [props[0]]) + Others(props[1..], key)
  }

  lemma {:induction false} OthersConcat(a: seq<Property>, b: seq<Property>, key: string)
    ensures Others(a + b, key) == Others(a, key) + Others(b, key)
  {
    if a == [] {
      assert a + b == b;
    } else {
      assert (a + b)[1..] == a[1..] + b;
      OthersConcat(a[1..], b, key);
    }
  }

  lemma {:induction false} OthersAll(props: seq<Property>, key: string)
    requires !HasKey(props, key)
    ensures Others(props, key) == props
  {
    if props != [] {
      assert props[0].key != key;
      assert forall k | 0 <= k < |props| - 1 :: props[1..][k].key == props[k + 1].key;
      OthersAll(props[1..], key);
    }
  }

  function Keys(props: seq<Property>): seq<string> {
    seq(|props|, k requires 0 <= k < |props| => props[k].key)
  }

  lemma KeysOfCons(p: Property, rest: seq<Property>)
    ensures Keys([p] + rest) == [p.key] + Keys(rest)
  {
  }

  lemma HasKeyInTail(props: seq<Property>, key: string)
    requires props != [] && props[0].key != key
    ensures HasKey(props[1..], key) <==> HasKey(props, key)
  {
    FindAbsent(props, key);
    FindAbsent(props[1..], key);
  }

  lemma ConsAppend(k: string, keys: seq<string>, more: seq<string>)
    ensures [k] + (keys + more) == [k] + keys + more
  {
  }

  /** Setting a key leaves every other property as it is and where it is; a new key goes last. */
  lemma {:induction false} UpsertKeepsOrder(props: seq<Property>, key: string, value: string)
    ensures Others(Upsert(props, key, value), key) == Others(props, key)
    ensures Keys(Upsert(props, key, value)) == Keys(props) + if HasKey(props, key) then [] else [key]
  {
    if props == [] {
    } else if props[0].key == key {
      OthersConcat([Property(key, value)], props[1..], key);
      assert HasKey(props, key);
    } else {
      var rest := Upsert(props[1..], key, value);
      UpsertKeepsOrder(props[1..], key, value);
      OthersConcat([props[0]], rest, key);
      assert [props[0]][1..] == [];
      HasKeyInTail(props, key);
      KeysOfCons(props[0], rest);
      KeysOfCons(props[0], props[1..]);
      assert props == [props[0]] + props[1..];
      ConsAppend(props[0].key, Keys(props[1..]), if HasKey(props, key) then [] else [key]);
    }
  }

  /** Removing a key from a list without repetitions leaves exactly the others, in order. */
  lemma {:induction false} DeleteKeepsOrder(props: seq<Property>, key: string)
    requires UniqueKeys(props)
    ensures Delete(props, key) == Others(props, key)
  {
    if props != [] {
      if props[0].key == key {
        assert forall k | 0 <= k < |props| - 1 :: props[1..][k].key == props[k + 1].key;
        OthersAll(props[1..], key);
      } else {
        DeleteKeepsOrder(props[1..], key);
      }
    }
  }

  lemma {:induction false} OthersUnique(props: seq<Property>, key: string)
    requires UniqueKeys(props)
    ensures UniqueKeys(Others(props, key))
    ensures forall p | p in Others(props, key) :: p in props && p.key != key
  {
    if props != [] {
      OthersUnique(props[1..], key);
      var rest := Others(props[1..], key);
      assert forall k | 0 <= k < |rest| :: rest[k] in props[1..];
      assert forall p | p in props[1..] :: p.key != props[0].key;
    }
  }

  // Operations

  predicate DistinctKeys(keys: seq<string>) {
    forall i, j | 0 <= i < j < |keys| :: keys[i] != keys[j]
  }

  lemma KeysUnique(props: seq<Property>)
    ensures UniqueKeys(props) <==> DistinctKeys(Keys(props))
  {
    var keys := Keys(props);
    assert forall k | 0 <= k < |props| :: keys[k] == props[k].key;
  }

  /** No key is used twice and none is reserved, said on the keys. */
  predicate GoodKeys(keys: seq<string>) {
    DistinctKeys(keys) && forall k | 0 <= k < |keys| :: NameOf(keys[k]).Other?
  }

  lemma WellKeptKeys(l: Record)
    ensures WellKept(l) <==> GoodKeys(Keys(l.props))
  {
    var keys := Keys(l.props);
    KeysUnique(l.props);
    assert forall k | 0 <= k < |l.props| :: keys[k] == l.props[k].key;
  }

  lemma GoodKeysAdd(keys: seq<string>, key: string)
    requires GoodKeys(keys) && key !in keys && NameOf(key).Other?
    ensures GoodKeys(keys + [key])
  {
  }

  lemma UpsertWellKept(l: Record, key: string, value: string)
    requires WellKept(l) && NameOf(key).Other?
    ensures WellKept(l.(props := Upsert(l.props, key, value)))
  {
    WellKeptKeys(l);
    WellKeptKeys(l.(props := Upsert(l.props, key, value)));
    UpsertKeepsOrder(l.props, key, value);
    if HasKey(l.props, key) {
      assert Keys(l.props) + [] == Keys(l.props);
    } else {
      GoodKeysAdd(Keys(l.props), key);
    }
  }

  lemma DeleteWellKept(l: Record, key: string)
    requires WellKept(l)
    ensures WellKept(l.(props := Delete(l.props, key)))
  {
    DeleteKeepsOrder(l.props, key);
    OthersUnique(l.props, key);
    var props := Others(l.props, key);
    assert forall k | 0 <= k < |props| :: props[k] in l.props;
  }

  lemma FieldRefines(l: Record, f: Field, value: string)
    ensures FieldMap(WithField(l, f, value)) == SetField(FieldMap(l), f, value)
  {
  }

  lemma TimestampDropRefines(l: Record)
    ensures FieldMap(l.(date := "", time := "")) == FieldMap(l) - {FDate, FTime}
  {
  }

  /** A header field changes; the properties do not. */
  lemma FieldPutRefines(l: Record, f: Field, value: string)
    requires WellKept(l)
    ensures WellKept(WithField(l, f, value))
    ensures Abstract(WithField(l, f, value)) == Abstract(l).(fields := SetField(FieldMap(l), f, value))
  {
    FieldRefines(l, f, value);
    assert WithField(l, f, value).props == l.props;
  }

  lemma TimestampPutRefines(l: Record, date: string, time: string)
    requires WellKept(l)
    ensures WellKept(l.(date := date, time := time))
    ensures Abstract(l.(date := date, time := time))
         == Abstract(l).(fields := SetField(SetField(FieldMap(l), FDate, date), FTime, time))
  {
    FieldPutRefines(l, FDate, date);
    FieldPutRefines(WithField(l, FDate, date), FTime, time);
  }

  lemma PutRefines(l: Record, key: string, value: string)
    requires WellKept(l)
    ensures Put(l, key, value).Panic? <==> ModelPut(Abstract(l), key, value).Panic?
    ensures Put(l, key, value).Ok? ==>
              && WellKept(Put(l, key, value).value)
              && Abstract(Put(l, key, value).value) == ModelPut(Abstract(l), key, value).value
  {
    match NameOf(key)
    case Timestamp =>
      if value == "" {
        DropRefines(l, key);
      } else if Spaces(value) == 1 {
        TimestampPutRefines(l, BeforeSpace(value), AfterSpace(value));
      }
    case Named(f) =>
      FieldPutRefines(l, f, value);
    case Other =>
      UpsertWellKept(l, key, value);
      UpsertPropMap(l.props, key, value);
  }

  lemma DropRefines(l: Record, key: string)
    requires WellKept(l)
    ensures WellKept(Drop(l, key)) && Abstract(Drop(l, key)) == ModelDrop(Abstract(l), key)
  {
    match NameOf(key)
    case Timestamp =>
      TimestampDropRefines(l);
    case Named(f) =>
      FieldPutRefines(l, f, "");
    case Other =>
      DeleteWellKept(l, key);
      DeletePropMap(l.props, key);
  }

  // Runs

  datatype Op = SetOp(key: string, value: string) | RemoveOp(key: string) | ResetOp

  function Apply(l: Record, op: Op): Outcome<Record> {
    match op
    case SetOp(key, value) => Put(l, key, value)
    case RemoveOp(key) => Ok(Drop(l, key))
    case ResetOp => Ok(EMPTY_RECORD)
  }

  function ModelApply(m: Model, op: Op): Outcome<Model> {
    match op
    case SetOp(key, value) => ModelPut(m, key, value)
    case RemoveOp(key) => Ok(ModelDrop(m, key))
    case ResetOp => Ok(EMPTY_MODEL)
  }

  function Run(l: Record, ops: seq<Op>): Outcome<Record>
    decreases |ops|
  {
    if ops == [] then Ok(l) else var m :- Apply(l, ops[0]); Run(m, ops[1..])
  }

  function ModelRun(m: Model, ops: seq<Op>): Outcome<Model>
    decreases |ops|
  {
    if ops == [] then Ok(m) else var n :- ModelApply(m, ops[0]); ModelRun(n, ops[1..])
  }

  /** Any run of operations is a run on the map: it fails on the same invalid timestamp, keys stay
      unique and unreserved, and every lookup afterwards agrees. */
  lemma {:induction false} RunRefines(l: Record, ops: seq<Op>)
    requires WellKept(l)
    ensures Run(l, ops).Panic? <==> ModelRun(Abstract(l), ops).Panic?
    ensures Run(l, ops).Ok? ==>
              && WellKept(Run(l, ops).value)
              && Abstract(Run(l, ops).value) == ModelRun(Abstract(l), ops).value
              && forall key :: Lookup(Run(l, ops).value, key) == ModelLookup(ModelRun(Abstract(l), ops).value, key)
    decreases |ops|
  {
    if ops == [] {
      forall key ensures Lookup(l, key) == ModelLookup(Abstract(l), key) { GetAgrees(l, key); }
    } else {
      match ops[0]
      case SetOp(key, value) =>
        PutRefines(l, key, value);
        if Put(l, key, value).Ok? {
          RunRefines(Put(l, key, value).value, ops[1..]);
        }
      case RemoveOp(key) =>
        DropRefines(l, key);
        RunRefines(Drop(l, key), ops[1..]);
      case ResetOp =>
        assert Abstract(EMPTY_RECORD) == EMPTY_MODEL;
        RunRefines(EMPTY_RECORD, ops[1..]);
    }
  }

  lemma NewLogRefines(ops: seq<Op>)
    ensures Run(EMPTY_RECORD, ops).Panic? <==> ModelRun(EMPTY_MODEL, ops).Panic?
    ensures Run(EMPTY_RECORD, ops).Ok? ==>
              && UniqueKeys(Run(EMPTY_RECORD, ops).value.props)
              && forall key ::
                   Lookup(Run(EMPTY_RECORD, ops).value, key) == ModelLookup(ModelRun(EMPTY_MODEL, ops).value, key)
  {
    assert Abstract(EMPTY_RECORD) == EMPTY_MODEL;
    RunRefines(EMPTY_RECORD, ops);
  }
}
