/** The parser against the printer: parsing undoes printing, also when the text arrives in chunks. */
module RoundTrip {
  import opened Results
  import opened Records
  import opened Text
  import opened ParserSpec
  import opened ParserSafety
  import opened ParserChunks
  import opened Printer

  // Steps of a run. Each says where the scan goes on, and that the text may be cut anywhere in it.

  lemma RunPlain(p: PendingLine, t: string, rest: string)
    requires AllPlain(p.state, t)
    ensures var q := p.(tail := p.tail + t, width := p.width + |t|);
            Scan(p, t + rest) == Scan(q, rest) && (Sync(q, rest) ==> Sync(p, t + rest))
  {
    ScanPlain(p, t, rest);
    SyncPlain(p, t, rest);
  }

  lemma {:induction false} SyncPlain(p: PendingLine, t: string, rest: string)
    requires AllPlain(p.state, t)
    ensures Sync(p.(tail := p.tail + t, width := p.width + |t|), rest) ==> Sync(p, t + rest)
    decreases |t|
  {
    if t == "" {
      assert t + rest == rest && p.tail + t == p.tail;
    } else {
      PlainStep(p, t[0]);
      assert (t + rest)[1..] == t[1..] + rest;
      assert p.tail + [t[0]] + t[1..] == p.tail + t;
      SyncPlain(Extend(p, [t[0]]), t[1..], rest);
    }
  }

  /** From `p` at `text`, the scan comes to `q` at `rest`; and if the rest may be cut anywhere,
      so may the whole. */
  ghost predicate Goes(p: PendingLine, text: string, q: PendingLine, rest: string) {
    Scan(p, text) == Scan(q, rest) && (Sync(q, rest) ==> Sync(p, text))
  }

  lemma RunStep(p: PendingLine, c: char, rest: string, q: PendingLine)
    requires Ascii(c) && c != '\n' && ResumeSafe(p, c) && Step(p, [c]) == Ok(q)
    ensures Goes(p, [c] + rest, q, rest)
  {
    ScanFirst(p, [c] + rest);
    assert ([c] + rest)[1..] == rest;
  }

  lemma WholeToken(t: string, c: char)
    ensures t[..|t|] == t && (t + [c])[|t| + 1..] == ""
  {
  }

  /** A token of ordinary characters and the character that ends it. */
  lemma RunToken(s: State, l: Record, t: string, c: char, rest: string, q: PendingLine)
    requires AllPlain(s, t) && Ascii(c) && c != '\n'
    requires ResumeSafe(Pending(s, t, |t|, l), c) && Step(Pending(s, t, |t|, l), [c]) == Ok(q)
    ensures Goes(Pending(s, "", 0, l), t + ([c] + rest), q, rest)
  {
    RunPlain(Pending(s, "", 0, l), t, [c] + rest);
    assert "" + t == t;
    RunStep(Pending(s, t, |t|, l), c, rest, q);
  }

  lemma EnterStep(p: PendingLine, c: char)
    requires IsTransition(p.state) && p.width == 0 && !IsBlank(c)
    ensures Step(p, [c]) == Step(p.(state := Succ(p.state)), [c]) && ResumeSafe(p, c)
  {
  }

  /** Blanks are over: the state after the transition reads the text. */
  lemma RunEnter(p: PendingLine, text: string)
    requires IsTransition(p.state) && p.width == 0
    requires text != "" && Ascii(text[0]) && text[0] != '\n' && !IsBlank(text[0])
    ensures Goes(p, text, p.(state := Succ(p.state)), text)
  {
    var q := p.(state := Succ(p.state));
    EnterStep(p, text[0]);
    ScanFirst(p, text);
    ScanFirst(q, text);
    if Sync(q, text) {
      SyncFirst(q, text);
      SyncFirst(p, text);
    }
  }

  lemma SyncFirst(p: PendingLine, text: string)
    requires text != "" && text[0] != '\n'
    ensures Sync(p, text) <==>
            && Ascii(text[0])
            && ResumeSafe(p, text[0])
            && Step(p, [text[0]]).Ok?
            && Sync(Step(p, [text[0]]).value, text[1..])
  {
  }

  // Header

  predicate HeaderFormed(l: Record) {
    && AllPlain(Date, l.date)
    && AllPlain(Time, l.time)
    && l.level != "" && AllPlain(Level, l.level)
    && AllPlain(ThreadBracket, l.thread)
    && AllPlain(Class, l.cls)
  }

  function HeaderOnly(l: Record): Record {
    Record(l.date, l.time, l.level, OrDash(l.thread), OrDash(l.cls), "", [])
  }

  /** `date `. */
  lemma RunDate(date: string, rest: string)
    requires AllPlain(Date, date)
    ensures Goes(FRESH, date + (" " + rest), Pending(Time, "", 0, EMPTY_RECORD.(date := date)), rest)
  {
    WholeToken(date, ' ');
    RunToken(Date, EMPTY_RECORD, date, ' ', rest, Pending(Time, "", 0, EMPTY_RECORD.(date := date)));
  }

  /** `time<tab>`. */
  lemma RunTime(l: Record, time: string, rest: string)
    requires AllPlain(Time, time)
    ensures Goes(Pending(Time, "", 0, l), time + ("\t" + rest), Pending(TransitionLevel, "", 0, l.(time := time)), rest)
  {
    WholeToken(time, '\t');
    RunToken(Time, l, time, '\t', rest, Pending(TransitionLevel, "", 0, l.(time := time)));
  }

  /** `level<tab>`. */
  lemma RunLevel(l: Record, level: string, rest: string)
    requires level != "" && AllPlain(Level, level)
    ensures Goes(Pending(TransitionLevel, "", 0, l), level + ("\t" + rest),
                 Pending(TransitionThread, "", 0, l.(level := level)), rest)
  {
    assert Plain(Level, level[0]);
    RunEnter(Pending(TransitionLevel, "", 0, l), level + ("\t" + rest));
    WholeToken(level, '\t');
    RunToken(Level, l, level, '\t', rest, Pending(TransitionThread, "", 0, l.(level := level)));
  }

  /** `[thread]<tab>`. */
  lemma RunThread(l: Record, thread: string, rest: string)
    requires AllPlain(ThreadBracket, thread)
    ensures Goes(Pending(TransitionThread, "", 0, l), "[" + (thread + ("]" + ("\t" + rest))),
                 Pending(TransitionClass, "", 0, l.(thread := thread)), rest)
  {
    var q := Pending(TransitionClass, "", 0, l.(thread := thread));
    var inside := thread + ("]" + ("\t" + rest));
    RunStep(Pending(TransitionThread, "", 0, l), '[', inside, Pending(ThreadBracket, "", 0, l));
    WholeToken(thread, ']');
    RunToken(ThreadBracket, l, thread, ']', "\t" + rest, q);
    RunStep(q, '\t', rest, q);
  }

  lemma RunClass(l: Record, cls: string, rest: string)
    requires cls != "" && AllPlain(Class, cls)
    ensures Goes(Pending(TransitionClass, "", 0, l), cls + rest, Pending(Class, cls, |cls|, l), rest)
  {
    assert Plain(Class, cls[0]);
    RunEnter(Pending(TransitionClass, "", 0, l), cls + rest);
    RunPlain(Pending(Class, "", 0, l), cls, rest);
    assert "" + cls == cls;
  }

  lemma HeaderSplit(date: string, time: string, level: string, thread: string, cls: string, rest: string)
    ensures date + " " + time + "\t" + (level + "\t" + "[" + thread + "]" + "\t" + cls) + rest
         == date + (" " + (time + ("\t" + (level + ("\t" + ("[" + (thread + ("]" + ("\t" + (cls + rest))))))))))
  {
  }

  lemma GoesOn(p: PendingLine, t: string, q: PendingLine, u: string, r: PendingLine, v: string)
    requires Goes(p, t, q, u) && Goes(q, u, r, v)
    ensures Goes(p, t, r, v)
  {
  }

  /** Date and time. */
  lemma RunTimestamp(date: string, time: string, rest: string)
    requires AllPlain(Date, date) && AllPlain(Time, time)
    ensures Goes(FRESH, date + (" " + (time + ("\t" + rest))),
                 Pending(TransitionLevel, "", 0, EMPTY_RECORD.(date := date, time := time)), rest)
  {
    var l := EMPTY_RECORD.(date := date);
    var more := time + ("\t" + rest);
    RunDate(date, more);
    RunTime(l, time, rest);
    GoesOn(FRESH, date + (" " + more), Pending(Time, "", 0, l), more,
           Pending(TransitionLevel, "", 0, l.(time := time)), rest);
  }

  /** Level, thread and class. */
  lemma RunSource(l: Record, level: string, thread: string, cls: string, rest: string)
    requires level != "" && AllPlain(Level, level) && AllPlain(ThreadBracket, thread)
    requires cls != "" && AllPlain(Class, cls)
    ensures Goes(Pending(TransitionLevel, "", 0, l),
                 level + ("\t" + ("[" + (thread + ("]" + ("\t" + (cls + rest)))))),
                 Pending(Class, cls, |cls|, l.(level := level, thread := thread)), rest)
  {
    var l1 := l.(level := level);
    var l2 := l1.(thread := thread);
    var more := cls + rest;
    var bracket := "[" + (thread + ("]" + ("\t" + more)));
    RunLevel(l, level, bracket);
    RunThread(l1, thread, more);
    RunClass(l2, cls, rest);
    GoesOn(Pending(TransitionLevel, "", 0, l), level + ("\t" + bracket), Pending(TransitionThread, "", 0, l1), bracket,
           Pending(TransitionClass, "", 0, l2), more);
    GoesOn(Pending(TransitionLevel, "", 0, l), level + ("\t" + bracket), Pending(TransitionClass, "", 0, l2), more,
           Pending(Class, cls, |cls|, l2), rest);
  }

  /** The whole header, up to and with the class. */
  lemma RunHeader(l: Record, rest: string)
    requires HeaderFormed(l)
    ensures Goes(FRESH, TimestampText(l) + SourceText(l) + rest,
                 Pending(Class, OrDash(l.cls), |OrDash(l.cls)|, HeaderOnly(l).(cls := "")), rest)
  {
    var thread, cls := OrDash(l.thread), OrDash(l.cls);
    HeaderSplit(l.date, l.time, l.level, thread, cls, rest);
    var start := EMPTY_RECORD.(date := l.date, time := l.time);
    var more := l.level + ("\t" + ("[" + (thread + ("]" + ("\t" + (cls + rest))))));
    RunTimestamp(l.date, l.time, more);
    RunSource(start, l.level, thread, cls, rest);
    GoesOn(FRESH, TimestampText(l) + SourceText(l) + rest, Pending(TransitionLevel, "", 0, start), more,
           Pending(Class, cls, |cls|, HeaderOnly(l).(cls := "")), rest);
  }

  // Keys and values

  /** Whether a value scan that read `v` is just after a colon; `colon` says so at its start. */
  predicate AfterColon(v: string, colon: bool)
    decreases |v|
  {
    if v == "" then colon else AfterColon(v[1..], !colon && v[0] == ':')
  }

  /** Text that the value states keep as one token: no comma, and no space after a colon. The
      character after a colon is never looked at otherwise. */
  predicate ValueBody(v: string, colon: bool)
    decreases |v|
  {
    v == "" ||
    (Ascii(v[0]) && v[0] != '\n' && v[0] != (if colon then ' ' else ',') && ValueBody(v[1..], !colon && v[0] == ':'))
  }

  predicate ValueText(v: string) {
    ValueBody(v, false) && !(" " <= v)
  }

  function ValueState(colon: bool): State {
    if colon then MultiKey else Value
  }

  lemma ValueBodyStep(l: Record, t: string, c: char, colon: bool)
    requires Ascii(c) && c != '\n' && c != (if colon then ' ' else ',') && (t == "" ==> c != ' ')
    ensures Step(Pending(ValueState(colon), t, |t|, l), [c])
         == Ok(Pending(ValueState(!colon && c == ':'), t + [c], |t| + 1, l))
    ensures t != "" || c != ':' || colon ==> ResumeSafe(Pending(ValueState(colon), t, |t|, l), c)
  {
  }

  lemma {:induction false} RunValue(l: Record, t: string, v: string, colon: bool, rest: string)
    requires ValueBody(v, colon) && (t == "" ==> !(" " <= v) && !colon)
    ensures var p := Pending(ValueState(colon), t, |t|, l);
            var q := Pending(ValueState(AfterColon(v, colon)), t + v, |t + v|, l);
            && Scan(p, v + rest) == Scan(q, rest)
            && ((t != "" || !(":" <= v)) && Sync(q, rest) ==> Sync(p, v + rest))
    decreases |v|
  {
    if v == "" {
      assert v + rest == rest && t + v == t;
    } else {
      var p := Pending(ValueState(colon), t, |t|, l);
      ValueBodyStep(l, t, v[0], colon);
      assert v + rest == [v[0]] + (v[1..] + rest) && t + [v[0]] + v[1..] == t + v;
      RunValue(l, t + [v[0]], v[1..], !colon && v[0] == ':', rest);
      ScanFirst(p, v + rest);
      SyncFirst(p, v + rest);
      assert (v + rest)[1..] == v[1..] + rest;
    }
  }

  function WithProp(l: Record, k: string, v: string): Record {
    l.(props := l.props + [Property(k, v)])
  }

  /** `key: ` in a position after the first. */
  lemma RunKey(l: Record, k: string, rest: string)
    requires AllPlain(Key, k)
    ensures Goes(Pending(Key, "", 0, l), k + (":" + (" " + rest)), Pending(Value, "", 0, WithProp(l, k, "")), rest)
  {
    var q := Pending(Value, "", 0, WithProp(l, k, ""));
    WholeToken(k, ':');
    RunToken(Key, l, k, ':', " " + rest, q);
    RunStep(q, ' ', rest, q);
  }

  /** `, ` after a value. */
  lemma RunComma(l: Record, k: string, v: string, rest: string)
    ensures Goes(Pending(Value, v, |v|, WithProp(l, k, "")), "," + (" " + rest),
                 Pending(Key, "", 0, WithProp(l, k, v)), rest)
  {
    var q := Pending(Key, "", 0, WithProp(l, k, v));
    WholeToken(v, ',');
    assert SetLastValue(WithProp(l, k, ""), v).props == WithProp(l, k, v).props;
    RunStep(Pending(Value, v, |v|, WithProp(l, k, "")), ',', " " + rest, q);
    RunStep(q, ' ', rest, q);
  }

  /** The last value and the end of the line. */
  lemma RunLast(l: Record, s: State, k: string, v: string)
    ensures Scan(Pending(s, v, |v|, WithProp(l, k, "")), "\n") == Ok(Scanned(FRESH, [WithProp(l, k, v)]))
    ensures Sync(Pending(s, v, |v|, WithProp(l, k, "")), "\n")
  {
    WholeToken(v, '\n');
    assert SetLastValue(WithProp(l, k, ""), v).props == WithProp(l, k, v).props;
    ScanNewline(Pending(s, v, |v|, WithProp(l, k, "")));
  }

  predicate FirstKeyText(k: string) {
    AllPlain(CallType, k) && (k == "" || !IsBlank(k[0]))
  }

  /** `X: ` opening the body: the text before the first colon is taken for the call type. */
  lemma RunCallType(l: Record, x: string, rest: string)
    requires FirstKeyText(x)
    ensures Goes(Pending(TransitionCallType, "", 0, l), x + (":" + (" " + rest)),
                 Pending(VerifyCallType, "", 0, WithProp(l, KEY_CALL_TYPE, x)), rest)
  {
    var text := x + (":" + (" " + rest));
    var q := Pending(VerifyCallType, "", 0, WithProp(l, KEY_CALL_TYPE, x));
    assert x == "" ==> text[0] == ':';
    assert x != "" ==> Plain(CallType, x[0]) && text[0] == x[0];
    RunEnter(Pending(TransitionCallType, "", 0, l), text);
    WholeToken(x, ':');
    RunToken(CallType, l, x, ':', " " + rest, q);
    RunStep(q, ' ', rest, q);
  }

  /** `v, ` after it: it was the first key. */
  lemma RunFirstValue(l: Record, k: string, v: string, rest: string)
    requires l.props == [] && AllPlain(VerifyCallType, v)
    ensures Goes(Pending(VerifyCallType, "", 0, WithProp(l, KEY_CALL_TYPE, k)), v + ("," + (" " + rest)),
                 Pending(Key, "", 0, WithProp(l, k, v)), rest)
  {
    var q := Pending(Key, "", 0, WithProp(l, k, v));
    var p := Pending(VerifyCallType, v, |v|, WithProp(l, KEY_CALL_TYPE, k));
    WholeToken(v, ',');
    assert Step(p, ",").value.current.props == [Property(k, v)] == q.current.props;
    RunToken(VerifyCallType, p.current, v, ',', " " + rest, q);
    RunStep(q, ' ', rest, q);
  }

  // Entries

  predicate Printable(s: string) {
    forall k | 0 <= k < |s| :: Ascii(s[k]) && !IsEscaped(s[k])
  }

  predicate LaterEntry(e: Property) {
    Printable(e.key) && AllPlain(Key, e.key) && Printable(e.value) && ValueText(e.value)
  }

  /** Entries after the first; only the last value may end in a colon. */
  predicate LaterEntries(es: seq<Property>) {
    forall k | 0 <= k < |es| :: LaterEntry(es[k]) && (k < |es| - 1 ==> !AfterColon(es[k].value, false))
  }

  predicate NoLeadingColon(es: seq<Property>) {
    forall k | 0 <= k < |es| :: !(":" <= es[k].value)
  }

  lemma PrintableEscape(s: string)
    requires Printable(s)
    ensures Escape(s) == s
  {
    AsciiIsUtf8(s);
    EscapeIdentity(s);
  }

  lemma EntrySplit(k: string, v: string, rest: string)
    ensures k + ": " + v + rest == k + (":" + (" " + (v + rest)))
  {
  }

  lemma CommaSplit(e: string, more: string)
    ensures e + ", " + more + "\n" == e + ("," + (" " + (more + "\n")))
  {
  }

  /** `key: value, ` */
  lemma RunEntry(l: Record, k: string, v: string, rest: string)
    requires AllPlain(Key, k) && ValueText(v) && !AfterColon(v, false)
    ensures var p, q := Pending(Key, "", 0, l), Pending(Key, "", 0, WithProp(l, k, v));
            var text := k + (":" + (" " + (v + ("," + (" " + rest)))));
            && Scan(p, text) == Scan(q, rest)
            && (!(":" <= v) && Sync(q, rest) ==> Sync(p, text))
  {
    var after := "," + (" " + rest);
    RunKey(l, k, v + after);
    RunValue(WithProp(l, k, ""), "", v, false, after);
    assert "" + v == v;
    RunComma(l, k, v, rest);
  }

  /** `key: value` and the end of the line. */
  lemma RunLastEntry(l: Record, k: string, v: string)
    requires AllPlain(Key, k) && ValueText(v)
    ensures var p, text := Pending(Key, "", 0, l), k + (":" + (" " + (v + "\n")));
            && Scan(p, text) == Ok(Scanned(FRESH, [WithProp(l, k, v)]))
            && (!(":" <= v) ==> Sync(p, text))
  {
    RunKey(l, k, v + "\n");
    RunValue(WithProp(l, k, ""), "", v, false, "\n");
    assert "" + v == v;
    RunLast(l, ValueState(AfterColon(v, false)), k, v);
  }

  lemma JoinedOne(es: seq<Property>)
    requires |es| == 1 && Printable(es[0].key) && Printable(es[0].value)
    ensures Joined(es, ", ", ": ") + "\n" == es[0].key + (":" + (" " + (es[0].value + "\n")))
  {
    PrintableEscape(es[0].key);
    PrintableEscape(es[0].value);
    EntrySplit(es[0].key, es[0].value, "\n");
  }

  lemma JoinedMore(es: seq<Property>)
    requires |es| > 1 && Printable(es[0].key) && Printable(es[0].value)
    ensures Joined(es, ", ", ": ") + "\n"
         == es[0].key + (":" + (" " + (es[0].value + ("," + (" " + (Joined(es[1..], ", ", ": ") + "\n"))))))
  {
    var k, v, more := es[0].key, es[0].value, Joined(es[1..], ", ", ": ");
    PrintableEscape(k);
    PrintableEscape(v);
    CommaSplit(k + ": " + v, more);
    EntrySplit(k, v, "," + (" " + (more + "\n")));
  }

  /** What `RunEntries` says of a text. */
  ghost predicate ReadsEntries(l: Record, es: seq<Property>, text: string) {
    && Scan(Pending(Key, "", 0, l), text) == Ok(Scanned(FRESH, [l.(props := l.props + es)]))
    && (NoLeadingColon(es) ==> Sync(Pending(Key, "", 0, l), text))
  }

  lemma ReadsOne(l: Record, e: Property)
    requires LaterEntry(e)
    ensures ReadsEntries(l, [e], e.key + (":" + (" " + (e.value + "\n"))))
  {
    RunLastEntry(l, e.key, e.value);
    assert WithProp(l, e.key, e.value) == l.(props := l.props + [e]);
    assert NoLeadingColon([e]) ==> !(":" <= [e][0].value);
  }

  lemma ReadsMore(l: Record, es: seq<Property>, more: string)
    requires |es| > 1 && LaterEntry(es[0]) && !AfterColon(es[0].value, false)
    requires ReadsEntries(WithProp(l, es[0].key, es[0].value), es[1..], more)
    ensures ReadsEntries(l, es, es[0].key + (":" + (" " + (es[0].value + ("," + (" " + more))))))
  {
    var e := es[0];
    RunEntry(l, e.key, e.value, more);
    assert l.props + [e] + es[1..] == l.props + es;
    assert NoLeadingColon(es) ==> NoLeadingColon(es[1..]);
  }

  /** The entries after the first, to the end of the line. */
  lemma {:induction false} RunEntries(l: Record, es: seq<Property>)
    requires es != [] && LaterEntries(es)
    ensures ReadsEntries(l, es, Joined(es, ", ", ": ") + "\n")
    decreases |es|
  {
    if |es| == 1 {
      JoinedOne(es);
      ReadsOne(l, es[0]);
      assert es == [es[0]];
    } else {
      RunEntries(WithProp(l, es[0].key, es[0].value), es[1..]);
      JoinedMore(es);
      ReadsMore(l, es, Joined(es[1..], ", ", ": ") + "\n");
    }
  }

  // Whole lines

  /** The fields that reparse as they are printed. */
  predicate WellFormed(l: Record) {
    var es := Entries(l);
    && HeaderFormed(l)
    && (es != [] ==>
          && Printable(es[0].key) && FirstKeyText(es[0].key)
          && Printable(es[0].value) && AllPlain(VerifyCallType, es[0].value)
          && LaterEntries(es[1..]))
  }

  /** What reparsing gives: the message has become a property, and empty names a dash. */
  function Reparsed(l: Record): Record {
    HeaderOnly(l).(props := Entries(l))
  }

  predicate CutSafe(l: Record) {
    NoLeadingColon(Entries(l))
  }

  /** The class ends and the body begins. */
  lemma RunClassEnd(l: Record, rest: string)
    ensures Goes(Pending(Class, OrDash(l.cls), |OrDash(l.cls)|, HeaderOnly(l).(cls := "")), "\t" + rest,
                 Pending(TransitionCallType, "", 0, HeaderOnly(l)), rest)
  {
    WholeToken(OrDash(l.cls), '\t');
    RunStep(Pending(Class, OrDash(l.cls), |OrDash(l.cls)|, HeaderOnly(l).(cls := "")), '\t', rest,
            Pending(TransitionCallType, "", 0, HeaderOnly(l)));
  }

  lemma TextSplit(l: Record)
    ensures TextOf(l) + "\n" == TimestampText(l) + SourceText(l) + (Serialized(l, "\t", ", ", ": ") + "\n")
    ensures Entries(l) != [] ==>
              Serialized(l, "\t", ", ", ": ") + "\n" == "\t" + (Joined(Entries(l), ", ", ": ") + "\n")
  {
    Assoc(TimestampText(l) + SourceText(l), Serialized(l, "\t", ", ", ": "), "\n");
    Assoc("\t", Joined(Entries(l), ", ", ": "), "\n");
  }

  /** The line up to its body. */
  lemma RunToBody(l: Record)
    requires HeaderFormed(l) && Entries(l) != []
    ensures Goes(FRESH, TextOf(l) + "\n",
                 Pending(TransitionCallType, "", 0, HeaderOnly(l)), Joined(Entries(l), ", ", ": ") + "\n")
  {
    var body := Joined(Entries(l), ", ", ": ") + "\n";
    TextSplit(l);
    RunHeader(l, "\t" + body);
    RunClassEnd(l, body);
  }

  /** At least two entries: the line reparses. */
  lemma TwoEntriesReparse(l: Record)
    requires WellFormed(l) && |Entries(l)| >= 2
    ensures Scan(FRESH, TextOf(l) + "\n") == Ok(Scanned(FRESH, [Reparsed(l)]))
    ensures CutSafe(l) ==> Sync(FRESH, TextOf(l) + "\n")
  {
    var es := Entries(l);
    var e, more := es[0], Joined(es[1..], ", ", ": ") + "\n";
    var h := HeaderOnly(l);
    RunToBody(l);
    JoinedMore(es);
    RunCallType(h, e.key, e.value + ("," + (" " + more)));
    RunFirstValue(h, e.key, e.value, more);
    RunEntries(WithProp(h, e.key, e.value), es[1..]);
    ReparsedProps(l);
  }

  lemma ReparsedProps(l: Record)
    requires Entries(l) != []
    ensures var es, h := Entries(l), HeaderOnly(l);
            var first := WithProp(h, es[0].key, es[0].value);
            && first.(props := first.props + es[1..]) == Reparsed(l)
            && (CutSafe(l) ==> NoLeadingColon(es[1..]))
  {
    var es, h := Entries(l), HeaderOnly(l);
    assert WithProp(h, es[0].key, es[0].value).props + es[1..] == es;
  }

  /** One entry: its key is taken for the call type and its value for the message. */
  lemma OneEntryDiffers(l: Record)
    requires WellFormed(l) && |Entries(l)| == 1
    ensures Scan(FRESH, TextOf(l) + "\n").Ok?
    ensures Scan(FRESH, TextOf(l) + "\n").value.logs != [Reparsed(l)]
  {
    var es := Entries(l);
    var k, v := es[0].key, es[0].value;
    var h := HeaderOnly(l);
    RunToBody(l);
    JoinedOne(es);
    RunCallType(h, k, v + "\n");
    var p: PendingLine := Pending(VerifyCallType, "", 0, WithProp(h, KEY_CALL_TYPE, k));
    RunPlain(p, v, "\n");
    var q: PendingLine := p.(tail := "" + v, width := |v|);
    ScanNewline(q);
    var log := ConsumeLog(q.current, q.Token());
    assert q.Token() == v;
    assert Reparsed(l).props[0] == es[0];
    assert k != "" ==> log.message == v && log.props[0] == Property(KEY_CALL_TYPE, k);
    assert k == "" ==> log.props[0].key == KEY_CALL_TYPE;
  }

  /** No entry: the class is taken for the message. */
  lemma NoEntryDiffers(l: Record)
    requires WellFormed(l) && Entries(l) == []
    ensures Scan(FRESH, TextOf(l) + "\n").Ok?
    ensures Scan(FRESH, TextOf(l) + "\n").value.logs != [Reparsed(l)]
  {
    var q: PendingLine := Pending(Class, OrDash(l.cls), |OrDash(l.cls)|, HeaderOnly(l).(cls := ""));
    TextSplit(l);
    assert Serialized(l, "\t", ", ", ": ") + "\n" == "\n";
    RunHeader(l, "\n");
    ScanNewline(q);
    assert ConsumeLog(q.current, q.Token()).cls == "";
  }

  /** Parsing undoes printing exactly for logs with at least two entries: one log comes back, with
      the same header and the same entries in the same order, a message among them as `msg`. */
  lemma RoundTripExactly(l: Record)
    requires WellFormed(l)
    ensures ParsedLogs(TextOf(l) + "\n") == [Reparsed(l)] <==> |Entries(l)| >= 2
  {
    ScanSafe(FRESH, TextOf(l) + "\n");
    if |Entries(l)| >= 2 {
      TwoEntriesReparse(l);
    } else if |Entries(l)| == 1 {
      OneEntryDiffers(l);
    } else {
      NoEntryDiffers(l);
    }
  }

  /** Printing what was reparsed gives the first text again, for every log. */
  lemma ReprintIsSame(l: Record)
    ensures TextOf(Reparsed(l)) == TextOf(l)
  {
    assert Entries(Reparsed(l)) == Entries(l);
  }

  lemma PrintedTextIsFixedPoint(l: Record)
    requires WellFormed(l) && |Entries(l)| >= 2
    ensures |ParsedLogs(TextOf(l) + "\n")| == 1
    ensures TextOf(ParsedLogs(TextOf(l) + "\n")[0]) == TextOf(l)
  {
    RoundTripExactly(l);
    ReprintIsSame(l);
  }

  // Streams of printed logs

  predicate AllReparse(logs: seq<Record>) {
    forall k | 0 <= k < |logs| :: WellFormed(logs[k]) && |Entries(logs[k])| >= 2
  }

  function AllReparsed(logs: seq<Record>): seq<Record> {
    seq(|logs|, k requires 0 <= k < |logs| => Reparsed(logs[k]))
  }

  lemma {:induction false} SyncJoin(p: PendingLine, a: string, b: string)
    requires Sync(p, a) && Scan(p, a).Ok? && Sync(Scan(p, a).value.pending, b)
    ensures Sync(p, a + b)
    decreases |a|
  {
    if a == "" {
      assert a + b == b;
    } else {
      assert (a + b)[1..] == a[1..] + b;
      if a[0] == '\n' {
        SyncJoin(FRESH, a[1..], b);
      } else {
        ScanFirst(p, a);
        SyncJoin(Step(p, [a[0]]).value, a[1..], b);
      }
    }
  }

  lemma {:induction false} ManyLines(lines: seq<string>, logs: seq<Record>)
    requires |lines| == |logs|
    requires forall k | 0 <= k < |lines| :: EndsLine(lines[k]) && Scan(FRESH, lines[k]) == Ok(Scanned(FRESH, [logs[k]]))
    ensures Scan(FRESH, Concat(lines)) == Ok(Scanned(FRESH, logs))
  {
    if lines != [] {
      ManyLines(lines[1..], logs[1..]);
      ScanConcat(FRESH, lines[0], Concat(lines[1..]));
      assert logs == [logs[0]] + logs[1..];
    }
  }

  lemma {:induction false} ManySyncLines(lines: seq<string>)
    requires forall k | 0 <= k < |lines| ::
               Sync(FRESH, lines[k]) && Scan(FRESH, lines[k]).Ok? && Scan(FRESH, lines[k]).value.pending == FRESH
    ensures Sync(FRESH, Concat(lines))
  {
    if lines != [] {
      ManySyncLines(lines[1..]);
      SyncJoin(FRESH, lines[0], Concat(lines[1..]));
    }
  }

  /** Any concatenation of printed logs reparses log by log. */
  lemma PrintedLinesReparse(logs: seq<Record>)
    requires AllReparse(logs)
    ensures Scan(FRESH, Lines(logs)) == Ok(Scanned(FRESH, AllReparsed(logs)))
  {
    var lines, back := LineTexts(logs), AllReparsed(logs);
    forall k | 0 <= k < |lines|
      ensures EndsLine(lines[k]) && Scan(FRESH, lines[k]) == Ok(Scanned(FRESH, [back[k]]))
    {
      TwoEntriesReparse(logs[k]);
    }
    ManyLines(lines, back);
  }

  lemma PrintedLinesAreSync(logs: seq<Record>)
    requires AllReparse(logs) && forall k | 0 <= k < |logs| :: CutSafe(logs[k])
    ensures Sync(FRESH, Lines(logs))
  {
    var lines := LineTexts(logs);
    forall k | 0 <= k < |lines|
      ensures Sync(FRESH, lines[k]) && Scan(FRESH, lines[k]).Ok? && Scan(FRESH, lines[k]).value.pending == FRESH
    {
      TwoEntriesReparse(logs[k]);
    }
    ManySyncLines(lines);
  }

  /** However the printed text of the logs is cut into chunks, feeding the chunks to one parser
      gives the logs back, in order, and leaves nothing pending. */
  lemma ChunkedRoundTrip(logs: seq<Record>, chunks: seq<string>)
    requires AllReparse(logs) && Concat(chunks) == Lines(logs)
    requires forall k | 0 <= k < |logs| :: CutSafe(logs[k])
    ensures FeedAll(FRESH, chunks) == Ok(Scanned(FRESH, AllReparsed(logs)))
  {
    PrintedLinesReparse(logs);
    PrintedLinesAreSync(logs);
    EmptyReplays(FRESH);
    ChunkedEqualsBatch(FRESH, chunks);
  }

  // Any bytes: one log per printed line

  predicate HeaderOnOneLine(l: Record) {
    '\n' !in l.date && '\n' !in l.time && '\n' !in l.level && '\n' !in l.thread && '\n' !in l.cls
  }

  lemma {:induction false} JoinedOnOneLine(es: seq<Property>)
    ensures '\n' !in Joined(es, ", ", ": ")
  {
    if es != [] {
      EscapeHasNoControl(es[0].key);
      EscapeHasNoControl(es[0].value);
      JoinedOnOneLine(es[1..]);
    }
  }

  lemma HeaderTextOnOneLine(l: Record)
    requires HeaderOnOneLine(l)
    ensures '\n' !in TimestampText(l) && '\n' !in SourceText(l)
  {
  }

  lemma SerializedOnOneLine(l: Record)
    ensures '\n' !in Serialized(l, "\t", ", ", ": ")
  {
    JoinedOnOneLine(Entries(l));
  }

  lemma TextOnOneLine(l: Record)
    requires HeaderOnOneLine(l)
    ensures '\n' !in TextOf(l)
  {
    HeaderTextOnOneLine(l);
    SerializedOnOneLine(l);
  }

  lemma {:induction false} NewlinesOfLines(lines: seq<string>)
    requires forall k | 0 <= k < |lines| :: Newlines(lines[k]) == 1
    ensures Newlines(Concat(lines)) == |lines|
  {
    if lines != [] {
      NewlinesOfLines(lines[1..]);
      NewlinesConcat(lines[0], Concat(lines[1..]));
    }
  }

  /** Whatever the properties and messages hold, the parser finds as many logs as were printed. */
  lemma OneLogPerPrintedLine(logs: seq<Record>)
    requires forall k | 0 <= k < |logs| :: HeaderOnOneLine(logs[k])
    ensures |ParsedLogs(Lines(logs))| == |logs|
  {
    var lines := LineTexts(logs);
    forall k | 0 <= k < |lines| ensures Newlines(lines[k]) == 1 {
      TextOnOneLine(logs[k]);
      NoNewlines(TextOf(logs[k]));
      NewlinesConcat(TextOf(logs[k]), "\n");
    }
    NewlinesOfLines(lines);
  }
}
