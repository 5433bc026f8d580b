/** The mutable log of logging/logging.go: keyed access, and the two writers. */
module LogObject {
  import opened Results
  import opened Records
  import opened Text
  import opened Printer

  // The ordered list of properties

  function Upsert(props: seq<Property>, key: string, value: string): seq<Property> {
    if props == [] then
      [Property(key, value)]
    else if props[0].key == key then
      [Property(key, value)] + props[1..]
    else
      [props[0]] + Upsert(props[1..], key, value)
  }

  function Delete(props: seq<Property>, key: string): seq<Property> {
    if props == [] then
      []
    else if props[0].key == key then
      props[1..]
    else
      [props[0]] + Delete(props[1..], key)
  }

  predicate HasKey(props: seq<Property>, key: string) {
    exists k | 0 <= k < |props| :: props[k].key == key
  }

  /** Position of the first property with the key. */
  ghost predicate FirstAt(props: seq<Property>, key: string, i: nat) {
    i < |props| && props[i].key == key && forall k | 0 <= k < i :: props[k].key != key
  }

  lemma {:induction false} UpsertAt(props: seq<Property>, key: string, value: string, i: nat)
    requires FirstAt(props, key, i)
    ensures Upsert(props, key, value) == props[i := Property(key, value)]
  {
    if i > 0 {
      assert forall k | 0 <= k < i - 1 :: props[1..][k].key == props[k + 1].key;
      UpsertAt(props[1..], key, value, i - 1);
    }
  }

  lemma {:induction false} UpsertNew(props: seq<Property>, key: string, value: string)
    requires !HasKey(props, key)
    ensures Upsert(props, key, value) == props + [Property(key, value)]
  {
    if props != [] {
      NoKeyInTail(props, key);
      UpsertNew(props[1..], key, value);
      assert [props[0]] + (props[1..] + [Property(key, value)]) == props + [Property(key, value)];
    }
  }

  lemma {:induction false} DeleteAt(props: seq<Property>, key: string, i: nat)
    requires FirstAt(props, key, i)
    ensures Delete(props, key) == props[..i] + props[i + 1..]
  {
    if i > 0 {
      FirstInTail(props, key, i);
      DeleteAt(props[1..], key, i - 1);
      ShiftTail(props, i);
    }
  }

  lemma FirstInTail(props: seq<Property>, key: string, i: nat)
    requires FirstAt(props, key, i) && i > 0
    ensures props[0].key != key && FirstAt(props[1..], key, i - 1)
  {
  }

  lemma ShiftTail(props: seq<Property>, i: nat)
    requires 0 < i < |props|
    ensures [props[0]] + (props[1..][..i - 1] + props[1..][i..]) == props[..i] + props[i + 1..]
  {
    assert props[1..][i..] == props[i + 1..] && props[1..][..i - 1] == props[1..i];
    assert [props[0]] + props[1..i] == props[..i];
  }

  lemma NoKeyInTail(props: seq<Property>, key: string)
    requires props != [] && !HasKey(props, key)
    ensures props[0].key != key && !HasKey(props[1..], key)
  {
    forall k | 0 <= k < |props[1..]| ensures props[1..][k].key != key { assert props[1..][k] == props[k + 1]; }
  }

  lemma {:induction false} DeleteAbsent(props: seq<Property>, key: string)
    requires !HasKey(props, key)
    ensures Delete(props, key) == props
  {
    if props != [] {
      NoKeyInTail(props, key);
      DeleteAbsent(props[1..], key);
      assert props == [props[0]] + props[1..];
    }
  }

  // Keyed access to a log

  const KEY_THREAD := "thread"
  const KEY_CLASS := "class"
  const KEY_LEVEL := "level"
  const KEY_TIME := "time"
  const KEY_DATE := "date"
  const KEY_TIMESTAMP := "timestamp"

  datatype Field = FThread | FClass | FLevel | FTime | FDate | FMessage

  /** What a key stands for: one header field, date and time together, or a property. */
  datatype Name = Timestamp | Named(field: Field) | Other

  function NameOf(key: string): Name {
    if key == KEY_TIMESTAMP then Timestamp
    else if key == KEY_LEVEL then Named(FLevel)
    else if key == KEY_MESSAGE then Named(FMessage)
    else if key == KEY_THREAD then Named(FThread)
    else if key == KEY_CLASS then Named(FClass)
    else if key == KEY_TIME then Named(FTime)
    else if key == KEY_DATE then Named(FDate)
    else Other
  }

  function FieldOf(l: Record, f: Field): string {
    match f
    case FThread => l.thread
    case FClass => l.cls
    case FLevel => l.level
    case FTime => l.time
    case FDate => l.date
    case FMessage => l.message
  }

  function WithField(l: Record, f: Field, value: string): Record {
    match f
    case FThread => l.(thread := value)
    case FClass => l.(cls := value)
    case FLevel => l.(level := value)
    case FTime => l.(time := value)
    case FDate => l.(date := value)
    case FMessage => l.(message := value)
  }

  /** Number of spaces: `strings.Split(s, " ")` has one part more. */
  function Spaces(s: string): nat {
    if s == "" then 0 else (if s[0] == ' ' then 1 else 0) + Spaces(s[1..])
  }

  /** The text before the first space, and the text after it. */
  function BeforeSpace(s: string): string {
    if s == "" || s[0] == ' ' then "" else [s[0]] + BeforeSpace(s[1..])
  }

  function AfterSpace(s: string): string {
    if s == "" then "" else if s[0] == ' ' then s[1..] else AfterSpace(s[1..])
  }

  lemma {:induction false} SplitAtSpace(s: string)
    requires Spaces(s) == 1
    ensures s == BeforeSpace(s) + " " + AfterSpace(s)
    ensures ' ' !in BeforeSpace(s) && ' ' !in AfterSpace(s)
  {
    if s[0] == ' ' {
      NoSpaces(s[1..]);
      assert s == " " + s[1..];
    } else {
      SplitAtSpace(s[1..]);
      assert s == [s[0]] + s[1..];
    }
  }

  lemma {:induction false} NoSpaces(s: string)
    ensures Spaces(s) == 0 <==> ' ' !in s
  {
    if s != "" {
      NoSpaces(s[1..]);
      assert s == [s[0]] + s[1..];
    }
  }

  /** `Set`; an invalid timestamp panics. */
  function Put(l: Record, key: string, value: string): Outcome<Record> {
    match NameOf(key)
    case Timestamp =>
      if value == "" then Ok(l.(date := "", time := ""))
      else if Spaces(value) == 1 then Ok(l.(date := BeforeSpace(value), time := AfterSpace(value)))
      else Panic
    case Named(f) => Ok(WithField(l, f, value))
    case Other => Ok(l.(props := Upsert(l.props, key, value)))
  }

  /** `Remove` */
  function Drop(l: Record, key: string): Record {
    match NameOf(key)
    case Timestamp => l.(date := "", time := "")
    case Named(f) => WithField(l, f, "")
    case Other => l.(props := Delete(l.props, key))
  }

  /** Whether `Set` and `Remove` report the key as present. */
  predicate Present(l: Record, key: string) {
    match NameOf(key)
    case Timestamp => l.date != "" || l.time != ""
    case Named(f) => FieldOf(l, f) != ""
    case Other => HasKey(l.props, key)
  }

  function Find(props: seq<Property>, key: string): Option<string> {
    if props == [] then None else if props[0].key == key then Some(props[0].value) else Find(props[1..], key)
  }

  lemma {:induction false} FindAt(props: seq<Property>, key: string, i: nat)
    requires FirstAt(props, key, i)
    ensures Find(props, key) == Some(props[i].value)
  {
    if i > 0 {
      assert forall k | 0 <= k < i - 1 :: props[1..][k].key == props[k + 1].key;
      FindAt(props[1..], key, i - 1);
    }
  }

  lemma {:induction false} FindAbsent(props: seq<Property>, key: string)
    ensures Find(props, key) == None <==> !HasKey(props, key)
  {
    if props != [] {
      FindAbsent(props[1..], key);
      assert forall k | 0 <= k < |props| - 1 :: props[1..][k].key == props[k + 1].key;
      if HasKey(props, key) && props[0].key != key {
        var k :| 0 <= k < |props| && props[k].key == key;
        assert props[1..][k - 1].key == key;
      }
    }
  }

  /** `Get`. The timestamp always counts as present: it has at least its space. */
  function Lookup(l: Record, key: string): Option<string> {
    match NameOf(key)
    case Timestamp => Some(l.date + " " + l.time)
    case Named(f) => if FieldOf(l, f) != "" then Some(FieldOf(l, f)) else None
    case Other => Find(l.props, key)
  }

  class Buffer {
    var data: string

    constructor ()
      ensures data == ""
    {
      data := "";
    }

    /** What has been written since the buffer held `n` bytes. */
    ghost function Since(n: nat): string
      requires n <= |data|
      reads this
    {
      data[n..]
    }

    /** `WriteRune`, or two `WriteByte`. */
    method WriteRune(r: string)
      modifies this
      ensures data == old(data) + r
    {
      data := data + r;
    }

    method WriteString(s: string)
      modifies this
      ensures data == old(data) + s
      ensures forall n: nat | n <= |old(data)| :: Since(n) == old(Since(n)) + s
    {
      data := data + s;
    }
  }

  /** The thread and the class are never printed empty. */
  method WriteOrDash(buf: Buffer, s: string)
    modifies buf
    ensures buf.data == old(buf.data) + OrDash(s)
    ensures forall n: nat | n <= |old(buf.data)| :: buf.Since(n) == old(buf.Since(n)) + OrDash(s)
  {
    if s != "" {
      buf.WriteString(s);
    } else {
      buf.WriteString("-");
    }
  }

  lemma RegroupAll(a: string, b: string, c: string, d: string)
    ensures a + b + c + d == a + (b + c + d)
  {
  }

  lemma Regroup(a: string, b: string, c: string, d: string)
    ensures a + (b + c) + d == a + (b + (c + d))
  {
  }

  lemma EscapeFrom(s: string, i: nat)
    requires i < |s|
    ensures var w := RuneWidth(s[i..]);
            Escape(s[i..]) == EscapeRune(s[i..i + w]) + Escape(s[i + w..])
  {
    var w := RuneWidth(s[i..]);
    assert s[i..][..w] == s[i..i + w] && s[i..][w..] == s[i + w..];
  }

  /** The rune at `i`, escaped. */
  method WriteNext(buf: Buffer, s: string, i: nat) returns (w: nat, ghost e: string)
    requires i < |s|
    modifies buf
    ensures 1 <= w <= |s| - i
    ensures buf.data == old(buf.data) + e && Escape(s[i..]) == e + Escape(s[i + w..])
  {
    w := RuneWidth(s[i..]);
    EscapeFrom(s, i);
    e := EscapeRune(s[i..i + w]);
    buf.WriteRune(EscapeRune(s[i..i + w]));
  }

  /** `appendProp`, half of it: the runes of a key or of a value. */
  method WriteEscaped(buf: Buffer, s: string)
    modifies buf
    ensures buf.data == old(buf.data) + Escape(s)
  {
    var i := 0;
    ghost var written, rest := "", Escape(s);
    assert s[0..] == s;
    while i < |s|
      invariant i <= |s|
      invariant rest == Escape(s[i..])
      invariant buf.data == old(buf.data) + written
      invariant written + rest == Escape(s)
    {
      ghost var e;
      var w;
      w, e := WriteNext(buf, s, i);
      Assoc(written, e, Escape(s[i + w..]));
      Assoc(old(buf.data), written, e);
      written, rest := written + e, Escape(s[i + w..]);
      i := i + w;
    }
    assert written + "" == written;
  }

  lemma FivePieces(a: string, b: string, c: string, d: string, e: string)
    ensures a + b + c + d + e == a + (b + (c + d + e))
  {
  }

  method AppendProp(keySep: string, valueSep: string, p: Property, buf: Buffer)
    modifies buf
    ensures buf.data == old(buf.data) + (keySep + Entry(p, valueSep))
  {
    buf.WriteString(keySep);
    WriteEscaped(buf, p.key);
    buf.WriteString(valueSep);
    WriteEscaped(buf, p.value);
    FivePieces(old(buf.data), keySep, Escape(p.key), valueSep, Escape(p.value));
  }

  lemma {:induction false} JoinedSnoc(entries: seq<Property>, p: Property, keySep: string, valueSep: string)
    requires entries != []
    ensures Joined(entries + [p], keySep, valueSep)
         == Joined(entries, keySep, valueSep) + (keySep + Entry(p, valueSep))
  {
    assert (entries + [p])[0] == entries[0] && (entries + [p])[1..] == entries[1..] + [p];
    if |entries| == 1 {
      assert entries[1..] + [p] == [p];
    } else {
      JoinedSnoc(entries[1..], p, keySep, valueSep);
    }
  }

  /** `serialize` case by case: the message comes last, after the separator that fits. */
  lemma SerializedCases(l: Record, headerSep: string, keySep: string, valueSep: string)
    ensures Serialized(l, headerSep, keySep, valueSep) ==
            (if l.props == [] then "" else headerSep + Joined(l.props, keySep, valueSep))
            + (if l.message == "" then "" else
                 (if l.props == [] then headerSep else keySep) + Entry(Property(KEY_MESSAGE, l.message), valueSep))
  {
    var msg := Property(KEY_MESSAGE, l.message);
    if l.message == "" {
      assert Entries(l) == l.props;
    } else if l.props == [] {
      assert Entries(l) == [msg];
    } else {
      JoinedSnoc(l.props, msg, keySep, valueSep);
    }
  }

  class Log {
    var date: string
    var time: string
    var level: string
    var thread: string
    var cls: string
    var message: string
    var props: seq<Property>

    ghost function Value(): Record
      reads this
    {
      Record(date, time, level, thread, cls, message, props)
    }

    constructor ()
      ensures Value() == EMPTY_RECORD
    {
      date, time, level, thread, cls, message, props := "", "", "", "", "", "", [];
    }

    method Reset()
      modifies this
      ensures Value() == EMPTY_RECORD
    {
      date, time, level, thread, cls, message, props := "", "", "", "", "", "", [];
    }

    method Timestamp() returns (s: string)
      ensures s == date + " " + time
    {
      s := date + " " + time;
    }

    method Set(key: string, value: string) returns (ok: bool, upsert: bool)
      modifies this
      ensures ok == Put(old(Value()), key, value).Ok?
      ensures ok ==> Value() == Put(old(Value()), key, value).value && upsert == Present(old(Value()), key)
    {
      ok, upsert := true, false;
      if key == KEY_TIMESTAMP {
        upsert := date != "" || time != "";
        if value == "" {
          date, time := "", "";
        } else if Spaces(value) + 1 != 2 {
          ok := false;
        } else {
          date, time := BeforeSpace(value), AfterSpace(value);
        }
      } else if key == KEY_LEVEL {
        upsert := level != "";
        level := value;
      } else if key == KEY_MESSAGE {
        upsert := message != "";
        message := value;
      } else if key == KEY_THREAD {
        upsert := thread != "";
        thread := value;
      } else if key == KEY_CLASS {
        upsert := cls != "";
        cls := value;
      } else if key == KEY_TIME {
        upsert := time != "";
        time := value;
      } else if key == KEY_DATE {
        upsert := date != "";
        date := value;
      } else {
        for i := 0 to |props|
          invariant props == old(props)
          invariant forall k | 0 <= k < i :: props[k].key != key
        {
          if props[i].key == key {
            UpsertAt(props, key, value, i);
            props := props[i := props[i].(value := value)];
            upsert := true;
            return;
          }
        }
        UpsertNew(props, key, value);
        props := props + [Property(key, value)];
      }
    }

    method Remove(key: string) returns (found: bool)
      modifies this
      ensures Value() == Drop(old(Value()), key)
      ensures found == Present(old(Value()), key)
    {
      found := false;
      if !NameOf(key).Other? {
        var ok;
        ok, found := Set(key, "");
      } else {
        var last := |props| - 1;
        if last < 0 {
          return;
        }
        for i := 0 to |props|
          invariant props == old(props)
          invariant forall k | 0 <= k < i :: props[k].key != key
        {
          if props[i].key == key {
            DeleteAt(props, key, i);
            found := true;
            if i == last {
              props := props[..i];
              return;
            }
            props := props[..i] + props[i + 1..];
            return;
          }
        }
        DeleteAbsent(props, key);
      }
    }

    method Get(key: string) returns (value: string, ok: bool)
      ensures Lookup(Value(), key) == if ok then Some(value) else None
      ensures !ok ==> value == ""
    {
      value, ok := "", false;
      if key == KEY_TIMESTAMP {
        value := Timestamp();
        ok := value != "";
      } else if NameOf(key).Named? {
        value := FieldOf(Record(date, time, level, thread, cls, message, props), NameOf(key).field);
        ok := value != "";
      } else {
        for i := 0 to |props|
          invariant forall k | 0 <= k < i :: props[k].key != key
        {
          if props[i].key == key {
            FindAt(props, key, i);
            return props[i].value, true;
          }
        }
        FindAbsent(props, key);
      }
    }

    /** The properties, without the message. */
    method SerializeProps(buf: Buffer, headerSep: string, keySep: string, valueSep: string)
      requires props != []
      modifies buf
      ensures buf.data == old(buf.data) + (headerSep + Joined(props, keySep, valueSep))
    {
      AppendProp(headerSep, valueSep, props[0], buf);
      var i := 1;
      assert props[..1] == [props[0]];
      while i < |props|
        invariant 1 <= i <= |props|
        invariant buf.data == old(buf.data) + (headerSep + Joined(props[..i], keySep, valueSep))
      {
        var entry := props[i];
        ghost var joined := Joined(props[..i], keySep, valueSep);
        JoinedSnoc(props[..i], entry, keySep, valueSep);
        Regroup(old(buf.data), headerSep, joined, keySep + Entry(entry, valueSep));
        AppendProp(keySep, valueSep, entry, buf);
        assert props[..i] + [entry] == props[..i + 1];
        i := i + 1;
      }
      assert props[..i] == props;
    }

    method Serialize(buf: Buffer, headerSep: string, keySep: string, valueSep: string)
      modifies buf
      ensures buf.data == old(buf.data) + Serialized(Value(), headerSep, keySep, valueSep)
    {
      SerializedCases(Value(), headerSep, keySep, valueSep);
      var sep := keySep;
      ghost var head := if props == [] then "" else headerSep + Joined(props, keySep, valueSep);
      if props == [] {
        sep := headerSep;
      } else {
        SerializeProps(buf, headerSep, keySep, valueSep);
      }
      assert buf.data == old(buf.data) + head;
      if message != "" {
        var msg := Property(KEY_MESSAGE, message);
        Assoc(old(buf.data), head, sep + Entry(msg, valueSep));
        AppendProp(sep, valueSep, msg, buf);
      } else {
        assert head + "" == head;
      }
    }

    method WriteJSONTo(buf: Buffer)
      modifies buf
      ensures buf.data == old(buf.data) + JsonOf(Value())
    {
      ghost var start := |buf.data|;
      assert buf.Since(start) == "";
      buf.WriteString("{\"timestamp\": \"");
      buf.WriteString(date);
      buf.WriteString(" ");
      buf.WriteString(time);
      buf.WriteString("\", \"level\": \"");
      buf.WriteString(level);
      buf.WriteString("\", \"thread\": \"");
      buf.WriteString(thread);
      buf.WriteString("\", \"class\": \"");
      buf.WriteString(cls);
      assert buf.Since(start) == HeaderJson(Value());
      Serialize(buf, "\", \"", "\", \"", "\": \"");
      buf.WriteString("\"}");
    }

    method WriteTimestamp(buf: Buffer)
      modifies buf
      ensures buf.data == old(buf.data) + TimestampText(Value())
    {
      buf.WriteString(date);
      buf.WriteString(" ");
      buf.WriteString(time);
      buf.WriteString("\t");
    }

    method WriteSource(buf: Buffer)
      modifies buf
      ensures buf.data == old(buf.data) + SourceText(Value())
    {
      buf.WriteString(level);
      buf.WriteString("\t");
      buf.WriteString("[");
      WriteOrDash(buf, thread);
      buf.WriteString("]");
      buf.WriteString("\t");
      WriteOrDash(buf, cls);
    }

    method WriteTo(buf: Buffer)
      modifies buf
      ensures buf.data == old(buf.data) + TextOf(Value())
    {
      WriteTimestamp(buf);
      WriteSource(buf);
      Serialize(buf, "\t", ", ", ": ");
      RegroupAll(old(buf.data), TimestampText(Value()), SourceText(Value()), Serialized(Value(), "\t", ", ", ": "));
    }
  }
}
