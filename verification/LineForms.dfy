/** The line formats that the parser reads, beyond the one that is printed: brackets or not, other
    separators, any blanks. Every set of characters is written out. */
module LineForms {
  import opened Results
  import opened Records
  import opened Text
  import opened ParserSpec
  import opened ParserSafety
  import opened ParserChunks
  import opened RoundTrip
  import opened ExactHeader

  /** Each byte is a rune: ASCII, or a byte that is not UTF-8. After a rune of more bytes the cursors
      are behind, and the fields are not those of the line. */
  predicate SingleBytes(s: string) {
    s == "" || (RuneWidth(s) == 1 && SingleBytes(s[1..]))
  }

  predicate DateText(s: string) {
    forall c | c in s :: c in "0123456789:,.-"
  }

  /** A character that ends a date or a time. */
  predicate DateEnd(c: char) {
    Ascii(c) && c !in "0123456789:,.-[\n"
  }

  predicate Word(s: string) {
    s != "" && SingleBytes(s) && forall c | c in s :: c !in " \t[]\n"
  }

  predicate WordEnd(c: char) {
    c == ' ' || c == '\t' || c == ']'
  }

  predicate InBrackets(s: string) {
    SingleBytes(s) && forall c | c in s :: c !in "\t]\n"
  }

  predicate Blanks(s: string) {
    forall c | c in s :: c == ' ' || c == '\t'
  }

  /** The five fields, with what opens and ends each and the blanks that follow. */
  datatype Header = Header(
    openDate: bool, date: string, dateEnd: char,
    time: string, timeEnd: char, gap1: string,
    openLevel: bool, level: string, levelEnd: char, gap2: string,
    openThread: bool, thread: string, threadEnd: char, gap3: string,
    openClass: bool, cls: string, classEnd: char, gap4: string) {

    predicate Valid() {
      && DateText(date) && DateEnd(dateEnd) && DateText(time) && DateEnd(timeEnd)
      && Word(level) && WordEnd(levelEnd)
      && (if openThread then InBrackets(thread) && (threadEnd == ']' || threadEnd == '\t')
          else Word(thread) && WordEnd(threadEnd))
      && Word(cls) && WordEnd(classEnd)
      && Blanks(gap1) && Blanks(gap2) && Blanks(gap3) && Blanks(gap4)
    }

    function Record(): Record {
      Records.Record(date, time, level, thread, cls, "", [])
    }

    function ClassText(rest: string): string {
      Opened(openClass, cls + ([classEnd] + (gap4 + rest)))
    }

    function ThreadText(rest: string): string {
      Opened(openThread, thread + ([threadEnd] + (gap3 + ClassText(rest))))
    }

    function LevelText(rest: string): string {
      Opened(openLevel, level + ([levelEnd] + (gap2 + ThreadText(rest))))
    }

    /** The header, followed by `rest`. */
    function Text(rest: string): string {
      Opened(openDate, date + ([dateEnd] + (time + ([timeEnd] + (gap1 + LevelText(rest))))))
    }
  }

  function Opened(open: bool, s: string): string {
    if open then "[" + s else s
  }

  // Raw fields, from their characters

  lemma DateChar(s: State, c: char)
    requires c in "0123456789:,.-" && (s.Date? || s.Time?)
    ensures Ascii(c) && Joins(s, c)
  {
  }

  lemma {:induction false} DateIsRaw(s: State, t: string)
    requires DateText(t) && (s.Date? || s.Time?)
    ensures Raw(s, t)
  {
    if t != "" {
      assert t[0] in t && forall c | c in t[1..] :: c in t;
      DateChar(s, t[0]);
      DateIsRaw(s, t[1..]);
    }
  }

  lemma {:induction false} WordIsRaw(s: State, t: string)
    requires SingleBytes(t) && (forall c | c in t :: c !in " \t[]\n") && (s.Level? || s.Class?)
    ensures Raw(s, t)
  {
    if t != "" {
      assert t[0] in t && forall c | c in t[1..] :: c in t;
      WordIsRaw(s, t[1..]);
    }
  }

  lemma {:induction false} BracketsAreRaw(t: string)
    requires InBrackets(t)
    ensures Raw(ThreadBracket, t)
  {
    if t != "" {
      assert t[0] in t && forall c | c in t[1..] :: c in t;
      BracketsAreRaw(t[1..]);
    }
  }

  // What opens a field, and the blanks before it

  lemma SkipBracket(s: State, l: Record, rest: string)
    requires s.Date? || s.Level? || s.Class?
    ensures Scan(Pending(s, "", 0, l), "[" + rest) == Scan(Pending(s, "", 0, l), rest)
  {
    var p: PendingLine := Pending(s, "", 0, l);
    ScanFirst(p, "[" + rest);
    assert ("[" + rest)[1..] == rest && ("" + "[")[1..] == "";
    assert Step(p, "[") == Ok(p);
  }

  lemma {:induction false} SkipBlanks(s: State, l: Record, gap: string, rest: string)
    requires IsTransition(s) && Blanks(gap)
    ensures Scan(Pending(s, "", 0, l), gap + rest) == Scan(Pending(s, "", 0, l), rest)
    decreases |gap|
  {
    if gap == "" {
      assert gap + rest == rest;
    } else {
      assert gap[0] in gap && forall c | c in gap[1..] :: c in gap;
      assert gap + rest == [gap[0]] + (gap[1..] + rest);
      SkipBlank(s, l, gap[0], gap[1..] + rest);
      SkipBlanks(s, l, gap[1..], rest);
    }
  }

  lemma SkipBlank(s: State, l: Record, c: char, rest: string)
    requires IsTransition(s) && (c == ' ' || c == '\t')
    ensures Scan(Pending(s, "", 0, l), [c] + rest) == Scan(Pending(s, "", 0, l), rest)
  {
    var p: PendingLine := Pending(s, "", 0, l);
    ScanFirst(p, [c] + rest);
    assert ([c] + rest)[1..] == rest && ("" + [c])[1..] == "";
    assert Step(p, [c]) == Ok(p);
  }

  // Level and class

  lemma ReadWord(s: State, l: Record, h: ParserSpec.Header, open: bool, t: string, c: char, rest: string)
    requires (h.HLevel? && s.TransitionLevel?) || (h.HClass? && s.TransitionClass?)
    requires Word(t) && WordEnd(c)
    ensures Scan(Pending(s, "", 0, l), Opened(open, t + ([c] + rest)))
         == Scan(Pending(if h.HLevel? then TransitionThread else TransitionCallType, "", 0, SetHeader(l, h, t)), rest)
  {
    WordIsRaw(TokenState(h), t);
    assert t[0] in t;
    if open {
      ScanEnters(Pending(s, "", 0, l), "[" + (t + ([c] + rest)));
      SkipBracket(TokenState(h), l, t + ([c] + rest));
      RawField(l, h, t, c, rest);
    } else {
      RawEntered(s, l, h, t, c, rest);
    }
  }

  // A thread without brackets

  lemma ThreadChar(p: PendingLine, c: char)
    requires p.state.ThreadNoBracket? && c !in " \t[]\n"
    ensures Step(p, [c]) == Ok(Extend(p, [c]))
  {
  }

  lemma {:induction false} ThreadRun(p: PendingLine, t: string, c: char, rest: string)
    requires p.state.ThreadNoBracket? && SingleBytes(t) && (forall x | x in t :: x !in " \t[]\n") && Ascii(c)
    ensures Scan(p, t + ([c] + rest)) == Scan(Longer(p, t), [c] + rest)
    decreases |t|
  {
    if t == "" {
      assert t + ([c] + rest) == [c] + rest && p.tail + t == p.tail;
    } else {
      var text := t + ([c] + rest);
      assert t[0] in t && forall x | x in t[1..] :: x in t;
      WidthBeforeAscii(t, c, rest);
      assert text[..1] == [t[0]] && text[1..] == t[1..] + ([c] + rest);
      ThreadChar(p, t[0]);
      ThreadRun(Extend(p, [t[0]]), t[1..], c, rest);
      LongerTwice(p, t);
    }
  }

  lemma ThreadEnds(l: Record, t: string, c: char, rest: string)
    requires WordEnd(c)
    ensures Scan(Pending(ThreadNoBracket, t, |t|, l), [c] + rest)
         == Scan(Pending(TransitionClass, "", 0, l.(thread := t)), rest)
  {
    var p: PendingLine := Pending(ThreadNoBracket, t, |t|, l);
    WholeToken(t, c);
    assert Step(p, [c]) == Ok(Pending(TransitionClass, "", 0, l.(thread := t)));
    ScanFirst(p, [c] + rest);
    assert ([c] + rest)[1..] == rest;
  }

  /** The first rune of a thread without brackets chooses the state that reads it. */
  lemma ThreadStarts(l: Record, text: string)
    requires text != "" && text[0] !in " \t[\n"
    ensures Scan(Pending(TransitionThread, "", 0, l), text) == Scan(Pending(ThreadNoBracket, "", 0, l), text)
  {
    var r := text[..RuneWidth(text)];
    TransitionEnters(Pending(TransitionThread, "", 0, l), r);
    assert Step(Pending(Thread, "", 0, l), r) == Step(Pending(ThreadNoBracket, "", 0, l), r);
  }

  lemma ReadThread(l: Record, open: bool, t: string, c: char, rest: string)
    requires if open then InBrackets(t) && (c == ']' || c == '\t') else Word(t) && WordEnd(c)
    ensures Scan(Pending(TransitionThread, "", 0, l), Opened(open, t + ([c] + rest)))
         == Scan(Pending(TransitionClass, "", 0, l.(thread := t)), rest)
  {
    if open {
      BracketsAreRaw(t);
      OpenBracket(l, t + ([c] + rest));
      RawField(l, HThread, t, c, rest);
    } else {
      assert t[0] in t;
      ThreadStarts(l, t + ([c] + rest));
      ThreadRun(Pending(ThreadNoBracket, "", 0, l), t, c, rest);
      assert Longer(Pending(ThreadNoBracket, "", 0, l), t) == Pending(ThreadNoBracket, t, |t|, l);
      ThreadEnds(l, t, c, rest);
    }
  }

  // The header

  lemma ReadTimestamp(h: Header, rest: string)
    requires h.Valid()
    ensures Scan(FRESH, Opened(h.openDate, h.date + ([h.dateEnd] + (h.time + ([h.timeEnd] + rest)))))
         == Scan(Pending(TransitionLevel, "", 0, EMPTY_RECORD.(date := h.date, time := h.time)), rest)
  {
    var more := h.time + ([h.timeEnd] + rest);
    var text := h.date + ([h.dateEnd] + more);
    if h.openDate {
      SkipBracket(Date, EMPTY_RECORD, text);
    }
    DateIsRaw(Date, h.date);
    DateIsRaw(Time, h.time);
    RawField(EMPTY_RECORD, HDate, h.date, h.dateEnd, more);
    RawField(EMPTY_RECORD.(date := h.date), HTime, h.time, h.timeEnd, rest);
  }

  lemma ReadNames(h: Header, l: Record, rest: string)
    requires h.Valid()
    ensures Scan(Pending(TransitionLevel, "", 0, l), h.gap1 + h.LevelText(rest))
         == Scan(Pending(TransitionCallType, "", 0, l.(level := h.level, thread := h.thread, cls := h.cls)), rest)
  {
    var l1 := l.(level := h.level);
    var l2 := l1.(thread := h.thread);
    var l3 := l2.(cls := h.cls);
    SkipBlanks(TransitionLevel, l, h.gap1, h.LevelText(rest));
    ReadWord(TransitionLevel, l, HLevel, h.openLevel, h.level, h.levelEnd, h.gap2 + h.ThreadText(rest));
    SkipBlanks(TransitionThread, l1, h.gap2, h.ThreadText(rest));
    ReadThread(l1, h.openThread, h.thread, h.threadEnd, h.gap3 + h.ClassText(rest));
    SkipBlanks(TransitionClass, l2, h.gap3, h.ClassText(rest));
    ReadWord(TransitionClass, l2, HClass, h.openClass, h.cls, h.classEnd, h.gap4 + rest);
    SkipBlanks(TransitionCallType, l3, h.gap4, rest);
  }

  /** Every header of the format is read into its five fields, whatever follows. */
  lemma HeaderIsRead(h: Header, rest: string)
    requires h.Valid()
    ensures Scan(FRESH, h.Text(rest)) == Scan(Pending(TransitionCallType, "", 0, h.Record()), rest)
  {
    ReadTimestamp(h, h.gap1 + h.LevelText(rest));
    ReadNames(h, EMPTY_RECORD.(date := h.date, time := h.time), rest);
  }

  // Bodies without pairs

  /** Text without a colon is the message. */
  lemma MessageAlone(l: Record, text: string)
    requires AllAscii(text) && ':' !in text && '\n' !in text && (text != "" ==> text[0] != ' ' && text[0] != '\t')
    requires l.props == []
    ensures Scan(Pending(TransitionCallType, "", 0, l), text + "\n") == Ok(Scanned(FRESH, [l.(message := text)]))
  {
    if text == "" {
      ScanNewline(Pending(TransitionCallType, "", 0, l));
    } else {
      WordIsPlain(CallType, text);
      RunEnter(Pending(TransitionCallType, "", 0, l), text + "\n");
      WordEndsLine(CallType, l, text);
    }
  }

  lemma WordIsPlain(s: State, t: string)
    requires AllAscii(t) && '\n' !in t
    requires (s.CallType? && ':' !in t) || (s.VerifyCallType? && forall c | c in t :: c !in " :,")
             || (s.Key? && forall c | c in t :: c !in " :")
    ensures AllPlain(s, t)
  {
    forall k | 0 <= k < |t| ensures Plain(s, t[k]) {
      assert t[k] in t;
    }
  }

  /** A word of the body that is still open at the end of the line. */
  lemma WordEndsLine(s: State, l: Record, m: string)
    requires AllPlain(s, m)
    ensures Scan(Pending(s, "", 0, l), m + "\n") == Ok(Scanned(FRESH, [ConsumeLog(l, m)]))
  {
    var q: PendingLine := Pending(s, m, |m|, l);
    RunPlain(Pending(s, "", 0, l), m, "\n");
    assert "" + m == m && q.Token() == m;
    ScanNewline(q);
  }

  /** One name with a colon, and one word: the call type and the message. */
  lemma CallTypeAndMessage(l: Record, x: string, m: string)
    requires AllAscii(x) && ':' !in x && '\n' !in x && x != "" && x[0] != ' ' && x[0] != '\t' && l.props == []
    requires AllAscii(m) && '\n' !in m && forall c | c in m :: c !in " :,"
    ensures Scan(Pending(TransitionCallType, "", 0, l), x + (":" + (" " + (m + "\n"))))
         == Ok(Scanned(FRESH, [l.(props := [Property("callType", x)], message := m)]))
  {
    var after := WithProp(l, "callType", x);
    WordIsPlain(CallType, x);
    WordIsPlain(VerifyCallType, m);
    RunCallType(l, x, m + "\n");
    WordEndsLine(VerifyCallType, after, m);
    assert after.props == [Property("callType", x)];
  }

  /** A word without a colon after the last pair is the message. */
  lemma TrailingMessage(l: Record, m: string)
    requires AllAscii(m) && '\n' !in m && forall c | c in m :: c !in " :"
    requires l.props != [] && l.props[|l.props| - 1].value != ""
    ensures Scan(Pending(Key, "", 0, l), m + "\n") == Ok(Scanned(FRESH, [l.(message := m)]))
  {
    WordIsPlain(Key, m);
    WordEndsLine(Key, l, m);
  }

  /** A line with a header of the format and a message gives exactly these fields. */
  lemma LineWithMessage(h: Header, text: string)
    requires h.Valid()
    requires AllAscii(text) && ':' !in text && '\n' !in text && (text != "" ==> text[0] != ' ' && text[0] != '\t')
    ensures ParsedLogs(h.Text(text + "\n")) == [h.Record().(message := text)]
  {
    HeaderIsRead(h, text + "\n");
    MessageAlone(h.Record(), text);
  }

  /** `[dateTtime] [level] thread class`, and `date time level thread class` with any blanks. */
  lemma CommonForms(date: string, time: string, level: string, thread: string, cls: string, rest: string)
    requires DateText(date) && DateText(time) && Word(level) && Word(thread) && Word(cls)
    ensures var l := Records.Record(date, time, level, thread, cls, "", []);
            var p: PendingLine := Pending(TransitionCallType, "", 0, l);
            && Scan(FRESH, "[" + date + "T" + time + "] [" + level + "] " + thread + " " + cls + " " + rest)
               == Scan(p, rest)
            && (forall b1, b2, b3, b4 | BlankRun(b1) && BlankRun(b2) && BlankRun(b3) && BlankRun(b4) ::
                  Scan(FRESH, date + " " + time + b1 + level + b2 + thread + b3 + cls + b4 + rest) == Scan(p, rest))
  {
    BracketForm(date, time, level, thread, cls, rest);
    forall b1, b2, b3, b4 | BlankRun(b1) && BlankRun(b2) && BlankRun(b3) && BlankRun(b4)
      ensures Scan(FRESH, date + " " + time + b1 + level + b2 + thread + b3 + cls + b4 + rest)
           == Scan(Pending(TransitionCallType, "", 0, Records.Record(date, time, level, thread, cls, "", [])), rest)
    {
      BlankForm(date, time, level, thread, cls, rest, b1, b2, b3, b4);
    }
  }

  predicate BlankRun(s: string) {
    s != "" && Blanks(s)
  }

  lemma BracketForm(date: string, time: string, level: string, thread: string, cls: string, rest: string)
    requires DateText(date) && DateText(time) && Word(level) && Word(thread) && Word(cls)
    ensures Scan(FRESH, "[" + date + "T" + time + "] [" + level + "] " + thread + " " + cls + " " + rest)
         == Scan(Pending(TransitionCallType, "", 0, Records.Record(date, time, level, thread, cls, "", [])), rest)
  {
    var h := Header(true, date, 'T', time, ']', " ", true, level, ']', " ",
                    false, thread, ' ', "", false, cls, ' ', "");
    HeaderIsRead(h, rest);
    BracketText(date, time, level, thread, cls, rest);
  }

  lemma BracketText(date: string, time: string, level: string, thread: string, cls: string, rest: string)
    ensures var h := Header(true, date, 'T', time, ']', " ", true, level, ']', " ",
                            false, thread, ' ', "", false, cls, ' ', "");
            h.Text(rest) == "[" + date + "T" + time + "] [" + level + "] " + thread + " " + cls + " " + rest
  {
    assert "] [" == "]" + (" " + "[") && "] " == "]" + " ";
  }

  lemma BlankForm(date: string, time: string, level: string, thread: string, cls: string, rest: string,
                  b1: string, b2: string, b3: string, b4: string)
    requires DateText(date) && DateText(time) && Word(level) && Word(thread) && Word(cls)
    requires BlankRun(b1) && BlankRun(b2) && BlankRun(b3) && BlankRun(b4)
    ensures Scan(FRESH, date + " " + time + b1 + level + b2 + thread + b3 + cls + b4 + rest)
         == Scan(Pending(TransitionCallType, "", 0, Records.Record(date, time, level, thread, cls, "", [])), rest)
  {
    var h := Header(false, date, ' ', time, b1[0], b1[1..], false, level, b2[0], b2[1..],
                    false, thread, b3[0], b3[1..], false, cls, b4[0], b4[1..]);
    BlankRunParts(b1);
    BlankRunParts(b2);
    BlankRunParts(b3);
    BlankRunParts(b4);
    HeaderIsRead(h, rest);
    BlankText(h, rest);
  }

  lemma BlankRunParts(b: string)
    requires BlankRun(b)
    ensures (b[0] == ' ' || b[0] == '\t') && Blanks(b[1..]) && [b[0]] + b[1..] == b
  {
    assert b[0] in b && forall c | c in b[1..] :: c in b;
  }

  lemma BlankText(h: Header, rest: string)
    requires !h.openDate && !h.openLevel && !h.openThread && !h.openClass
    ensures h.Text(rest)
         == h.date + [h.dateEnd] + h.time + ([h.timeEnd] + h.gap1) + h.level + ([h.levelEnd] + h.gap2)
            + h.thread + ([h.threadEnd] + h.gap3) + h.cls + ([h.classEnd] + h.gap4) + rest
  {
  }
}
