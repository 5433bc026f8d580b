/** What each key of a log stands for, said on the fields themselves. */
module LogKeys {
  import opened Results
  import opened Records
  import opened Printer
  import opened LogObject

  function Filled(value: string): Option<string> {
    if value != "" then Some(value) else None
  }

  /** `Get` */
  lemma LookupByKey(l: Record)
    ensures Lookup(l, "thread") == Filled(l.thread)
    ensures Lookup(l, "class") == Filled(l.cls)
    ensures Lookup(l, "level") == Filled(l.level)
    ensures Lookup(l, "date") == Filled(l.date)
    ensures Lookup(l, "time") == Filled(l.time)
    ensures Lookup(l, "msg") == Filled(l.message)
    ensures Lookup(l, "timestamp") == Some(l.date + " " + l.time)
  {
  }

  /** `Set` of a header field or the message. */
  lemma PutByKey(l: Record, v: string)
    ensures Put(l, "thread", v) == Ok(l.(thread := v))
    ensures Put(l, "class", v) == Ok(l.(cls := v))
    ensures Put(l, "level", v) == Ok(l.(level := v))
    ensures Put(l, "date", v) == Ok(l.(date := v))
    ensures Put(l, "time", v) == Ok(l.(time := v))
    ensures Put(l, "msg", v) == Ok(l.(message := v))
  {
  }

  /** `Set` of the timestamp: both parts, neither, or a panic. */
  lemma PutTimestamp(l: Record, date: string, time: string, v: string)
    ensures Put(l, "timestamp", "") == Ok(l.(date := "", time := ""))
    ensures ' ' !in date && ' ' !in time ==>
              Put(l, "timestamp", date + " " + time) == Ok(l.(date := date, time := time))
    ensures Put(l, "timestamp", v).Panic? <==>
            v != "" && !exists d, t :: ' ' !in d && ' ' !in t && v == d + " " + t
  {
    if ' ' !in date && ' ' !in time {
      SplitJoined(date, time);
    }
    if Spaces(v) == 1 {
      SplitAtSpace(v);
    }
    if d, t :| ' ' !in d && ' ' !in t && v == d + " " + t {
      SplitJoined(d, t);
    }
  }

  lemma {:induction false} SplitJoined(date: string, time: string)
    requires ' ' !in date && ' ' !in time
    ensures var s := date + " " + time;
            Spaces(s) == 1 && BeforeSpace(s) == date && AfterSpace(s) == time
    decreases |date|
  {
    var s := date + " " + time;
    if date == "" {
      assert s[1..] == time;
      NoSpaces(time);
    } else {
      assert s[0] == date[0] && s[1..] == date[1..] + " " + time && [date[0]] + date[1..] == date;
      assert date[0] in date;
      SplitJoined(date[1..], time);
    }
  }

  /** `Remove` */
  lemma DropByKey(l: Record)
    ensures Drop(l, "thread") == l.(thread := "")
    ensures Drop(l, "class") == l.(cls := "")
    ensures Drop(l, "level") == l.(level := "")
    ensures Drop(l, "date") == l.(date := "")
    ensures Drop(l, "time") == l.(time := "")
    ensures Drop(l, "msg") == l.(message := "")
    ensures Drop(l, "timestamp") == l.(date := "", time := "")
  {
  }

  /** What `Set` and `Remove` report. */
  lemma PresentByKey(l: Record)
    ensures Present(l, "thread") <==> l.thread != ""
    ensures Present(l, "class") <==> l.cls != ""
    ensures Present(l, "level") <==> l.level != ""
    ensures Present(l, "date") <==> l.date != ""
    ensures Present(l, "time") <==> l.time != ""
    ensures Present(l, "msg") <==> l.message != ""
    ensures Present(l, "timestamp") <==> l.date != "" || l.time != ""
  {
  }

  predicate Reserved(key: string) {
    key in ["timestamp", "thread", "class", "level", "date", "time", "msg"]
  }

  /** Every other text is the key of a property, the first one with it being meant. */
  lemma OtherKeys(l: Record, key: string, v: string)
    requires !Reserved(key)
    ensures Present(l, key) <==> exists k | 0 <= k < |l.props| :: l.props[k].key == key
    ensures forall k: nat | FirstAt(l.props, key, k) ::
              && Lookup(l, key) == Some(l.props[k].value)
              && Put(l, key, v) == Ok(l.(props := l.props[k := Property(key, v)]))
              && Drop(l, key) == l.(props := l.props[..k] + l.props[k + 1..])
    ensures !Present(l, key) ==>
              && Lookup(l, key) == None
              && Put(l, key, v) == Ok(l.(props := l.props + [Property(key, v)]))
              && Drop(l, key) == l
  {
    OtherName(key);
    forall k: nat | FirstAt(l.props, key, k)
      ensures Lookup(l, key) == Some(l.props[k].value)
      ensures Put(l, key, v) == Ok(l.(props := l.props[k := Property(key, v)]))
      ensures Drop(l, key) == l.(props := l.props[..k] + l.props[k + 1..])
    {
      FindAt(l.props, key, k);
      UpsertAt(l.props, key, v, k);
      DeleteAt(l.props, key, k);
    }
    if !Present(l, key) {
      FindAbsent(l.props, key);
      UpsertNew(l.props, key, v);
      DeleteAbsent(l.props, key);
    }
  }

  lemma OtherName(key: string)
    requires !Reserved(key)
    ensures NameOf(key).Other?
  {
  }

  // Texts that the format fixes

  /** The message is written last, under the key `msg`. */
  lemma EntriesInOrder(l: Record)
    ensures Entries(l) == if l.message == "" then l.props else l.props + [Property("msg", l.message)]
  {
  }

  /** The layout of a line, with a dash for an empty thread or class. */
  lemma LineLayout(l: Record)
    ensures var thread, cls := if l.thread == "" then "-" else l.thread, if l.cls == "" then "-" else l.cls;
            var header := l.date + " " + l.time + "\t" + (l.level + "\t" + "[" + thread + "]" + "\t" + cls);
            TextOf(l) == header + (if Entries(l) == [] then "" else "\t" + Joined(Entries(l), ", ", ": "))
  {
  }
}
