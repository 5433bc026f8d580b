/** Which header fields come back from a printed line: exactly those that the parser reads as one
    token of single bytes. */
module ExactHeader {
  import opened Results
  import opened Records
  import opened Text
  import opened ParserSpec
  import opened ParserSafety
  import opened ParserChunks
  import opened ParserSpans
  import opened Printer
  import opened RoundTrip

  /** The text, read from `p` on, finishes one line, and `log` is its log. */
  ghost predicate Gives(p: PendingLine, text: string, log: Record) {
    Scan(p, text).Ok? && Scan(p, text).value.logs == [log]
  }

  lemma GivesAtNewline(p: PendingLine, text: string, log: Record)
    requires Gives(p, text, log) && text != "" && text[0] == '\n'
    ensures log == ConsumeLog(p.current, p.Token())
  {
    assert Scan(p, text).value.logs[0] == ConsumeLog(p.current, p.Token());
  }

  lemma GivesNext(p: PendingLine, text: string, log: Record) returns (w: nat, q: PendingLine)
    requires Gives(p, text, log) && text != "" && text[0] != '\n'
    ensures w == RuneWidth(text) && Step(p, text[..w]) == Ok(q) && Gives(q, text[w..], log)
  {
    w := RuneWidth(text);
    q := Step(p, text[..w]).value;
  }

  // The header fields, each with the state that reads it

  function GetHeader(l: Record, h: Header): string {
    match h
    case HDate => l.date
    case HTime => l.time
    case HLevel => l.level
    case HThread => l.thread
    case HClass => l.cls
  }

  function HeaderRank(h: Header): nat {
    match h
    case HDate => 0
    case HTime => 1
    case HLevel => 2
    case HThread => 3
    case HClass => 4
  }

  function TokenState(h: Header): State {
    match h
    case HDate => Date
    case HTime => Time
    case HLevel => Level
    case HThread => ThreadBracket
    case HClass => Class
  }

  function StateAfter(h: Header): State {
    match h
    case HDate => Time
    case HTime => TransitionLevel
    case HLevel => TransitionThread
    case HThread => TransitionClass
    case HClass => TransitionCallType
  }

  // Once read, a field stays

  lemma StepFixes(p: PendingLine, r: string, h: Header)
    requires r != "" && Step(p, r).Ok? && Rank(p.state) > HeaderRank(h) && !p.state.Error?
    ensures var q := Step(p, r).value;
            && Rank(q.state) > HeaderRank(h) && !q.state.Error?
            && GetHeader(q.current, h) == GetHeader(p.current, h)
    decreases IsTransition(p.state)
  {
    if IsTransition(p.state) && !IsBlank(r[0]) {
      StepFixes(p.(state := Succ(p.state)), r, h);
    }
  }

  lemma {:induction false} HeaderFixed(p: PendingLine, text: string, log: Record, h: Header)
    requires Gives(p, text, log) && Rank(p.state) > HeaderRank(h) && !p.state.Error?
    ensures GetHeader(log, h) == GetHeader(p.current, h)
    decreases |text|
  {
    if text[0] == '\n' {
      GivesAtNewline(p, text, log);
    } else {
      var w, q := GivesNext(p, text, log);
      StepFixes(p, text[..w], h);
      HeaderFixed(q, text[w..], log, h);
    }
  }

  // One token

  predicate IsRune(r: string) {
    r != "" && (|r| > 1 ==> forall c | c in r :: !Ascii(c))
  }

  lemma FirstRune(text: string)
    requires text != ""
    ensures IsRune(text[..RuneWidth(text)]) && text[..RuneWidth(text)][0] == text[0]
  {
  }

  /** How a rune changes an open header token. */
  lemma TokenStep(p: PendingLine, r: string, h: Header)
    requires p.state == TokenState(h) && IsRune(r)
    ensures Step(p, r).Ok?
    ensures var q := Step(p, r).value;
            if !ActOf(p.state, r[0]).Keep? then
              q == Close(p, r, StateAfter(h), SetHeader(p.current, h, p.Token()))
            else if DropsBracket(p.state) && r[0] == '[' then
              q == Skip(p, r)
            else
              q == Extend(p, r)
  {
  }

  /** No character of the text ends a token in this state. */
  predicate Clean(s: State, t: string) {
    forall c | c in t :: ActOf(s, c).Keep?
  }

  lemma CleanRune(h: Header, r: string)
    requires IsRune(r) && ActOf(TokenState(h), r[0]).Keep?
    ensures Clean(TokenState(h), r)
  {
    forall c | c in r ensures ActOf(TokenState(h), c).Keep? {
      if |r| == 1 {
        assert c == r[0];
      } else {
        assert !Ascii(c) && !Ascii(r[0]);
      }
    }
  }

  lemma CleanMore(s: State, t: string, r: string)
    requires Clean(s, t) && Clean(s, r)
    ensures Clean(s, t + r) && Clean(s, (t + r)[if r != "" then 1 else 0..])
  {
    forall c | c in t + r ensures ActOf(s, c).Keep? {
      assert c in t || c in r;
    }
  }

  lemma CleanPart(s: State, t: string, n: nat)
    requires Clean(s, t) && n <= |t|
    ensures Clean(s, t[..n])
  {
  }

  /** A field that was read as a token holds no character that would have ended the token. */
  lemma {:induction false} TokenIsClean(p: PendingLine, text: string, log: Record, h: Header)
    requires Gives(p, text, log) && p.state == TokenState(h) && Clean(p.state, p.tail) && GetHeader(p.current, h) == ""
    ensures Clean(TokenState(h), GetHeader(log, h))
    decreases |text|
  {
    if text[0] == '\n' {
      GivesAtNewline(p, text, log);
    } else {
      var w, q := GivesNext(p, text, log);
      FirstRune(text);
      TokenStep(p, text[..w], h);
      if ActOf(p.state, text[0]).Keep? {
        CleanRune(h, text[..w]);
        CleanMore(p.state, p.tail, text[..w]);
        TokenIsClean(q, text[w..], log, h);
      } else {
        HeaderFixed(q, text[w..], log, h);
        CleanPart(p.state, p.tail, p.width);
      }
    }
  }

  /** Single bytes that all join the token. */
  predicate Raw(s: State, t: string) {
    t == "" || (RuneWidth(t) == 1 && Joins(s, t[0]) && Raw(s, t[1..]))
  }

  predicate Joins(s: State, c: char) {
    c != '\n' && ActOf(s, c).Keep? && !(DropsBracket(s) && c == '[')
  }

  lemma WidthBeforeAscii(t: string, c: char, rest: string)
    requires t != "" && Ascii(c)
    ensures RuneWidth(t + ([c] + rest)) == RuneWidth(t)
  {
    var s := t + ([c] + rest);
    assert forall k | 0 <= k < |t| :: s[k] == t[k];
    assert s[|t|] == c;
  }

  /** A text without characters that end the token adds at most its length to it, and adds that much
      only if it is raw. */
  lemma {:induction false} TokenWidth(p: PendingLine, t: string, c: char, rest: string, log: Record, h: Header)
      returns (q: PendingLine)
    requires Gives(p, t + ([c] + rest), log) && p.state == TokenState(h) && Ascii(c)
    requires Clean(p.state, t) && '\n' !in t
    ensures Gives(q, [c] + rest, log) && q.state == p.state && q.current == p.current
    ensures q.width <= p.width + |t| && (q.width == p.width + |t| ==> Raw(p.state, t))
    decreases |t|
  {
    var text := t + ([c] + rest);
    if t == "" {
      assert text == [c] + rest;
      q := p;
    } else {
      var w, m := GivesNext(p, text, log);
      WidthBeforeAscii(t, c, rest);
      assert text[..w] == t[..w] && text[w..] == t[w..] + ([c] + rest);
      FirstRune(t);
      TokenStep(p, t[..w], h);
      q := TokenWidth(m, t[w..], c, rest, log, h);
    }
  }

  lemma RawStep(p: PendingLine, t: string, c: char, rest: string, h: Header)
    requires p.state == TokenState(h) && t != "" && Raw(p.state, t) && Ascii(c)
    ensures Scan(p, t + ([c] + rest)) == Scan(Extend(p, [t[0]]), t[1..] + ([c] + rest))
  {
    var text := t + ([c] + rest);
    WidthBeforeAscii(t, c, rest);
    assert text[..1] == [t[0]] && text[1..] == t[1..] + ([c] + rest);
    TokenStep(p, [t[0]], h);
  }

  function Longer(p: PendingLine, t: string): PendingLine {
    p.(tail := p.tail + t, width := p.width + |t|)
  }

  lemma LongerTwice(p: PendingLine, t: string)
    requires t != ""
    ensures Longer(Extend(p, [t[0]]), t[1..]) == Longer(p, t)
  {
    assert [t[0]] + t[1..] == t;
    Assoc(p.tail, [t[0]], t[1..]);
  }

  lemma {:induction false} RawRun(p: PendingLine, t: string, c: char, rest: string, h: Header)
    requires p.state == TokenState(h) && Raw(p.state, t) && Ascii(c)
    ensures Scan(p, t + ([c] + rest)) == Scan(Longer(p, t), [c] + rest)
    decreases |t|
  {
    if t == "" {
      assert t + ([c] + rest) == [c] + rest && p.tail + t == p.tail;
    } else {
      RawStep(p, t, c, rest, h);
      RawRun(Extend(p, [t[0]]), t[1..], c, rest, h);
      LongerTwice(p, t);
    }
  }

  predicate Ends(h: Header, c: char) {
    Ascii(c) && c != '\n' && !ActOf(TokenState(h), c).Keep?
  }

  lemma FieldEnds(l: Record, h: Header, t: string, c: char, rest: string)
    requires Ends(h, c)
    ensures Scan(Pending(TokenState(h), t, |t|, l), [c] + rest)
         == Scan(Pending(StateAfter(h), "", 0, SetHeader(l, h, t)), rest)
  {
    var p := Pending(TokenState(h), t, |t|, l);
    TokenStep(p, [c], h);
    WholeToken(t, c);
    ScanFirst(p, [c] + rest);
    assert ([c] + rest)[1..] == rest;
  }

  /** A raw field and the character after it. */
  lemma RawField(l: Record, h: Header, t: string, c: char, rest: string)
    requires Raw(TokenState(h), t) && Ends(h, c)
    ensures Scan(Pending(TokenState(h), "", 0, l), t + ([c] + rest))
         == Scan(Pending(StateAfter(h), "", 0, SetHeader(l, h, t)), rest)
  {
    RawRun(Pending(TokenState(h), "", 0, l), t, c, rest, h);
    assert Longer(Pending(TokenState(h), "", 0, l), t) == Pending(TokenState(h), t, |t|, l);
    FieldEnds(l, h, t, c, rest);
  }

  /** A field comes back only if it is raw, and then the scan is right behind it. */
  lemma FieldExact(l: Record, h: Header, t: string, c: char, rest: string, log: Record)
    requires Gives(Pending(TokenState(h), "", 0, l), t + ([c] + rest), log) && GetHeader(l, h) == ""
    requires Ends(h, c) && '\n' !in t && GetHeader(log, h) == t
    ensures Raw(TokenState(h), t) && Gives(Pending(StateAfter(h), "", 0, SetHeader(l, h, t)), rest, log)
  {
    var p := Pending(TokenState(h), "", 0, l);
    TokenIsClean(p, t + ([c] + rest), log, h);
    var q := TokenWidth(p, t, c, rest, log, h);
    var w, m := GivesNext(q, [c] + rest, log);
    assert ([c] + rest)[..w] == [c];
    TokenStep(q, [c], h);
    HeaderFixed(m, ([c] + rest)[w..], log, h);
    assert |q.Token()| == q.width;
    RawField(l, h, t, c, rest);
  }

  /** Blanks before a token are dropped, so they do not come back either. */
  lemma {:induction false} EnteredIsClean(p: PendingLine, text: string, log: Record, h: Header)
    requires Gives(p, text, log) && (h.HLevel? || h.HClass?) && GetHeader(p.current, h) == ""
    requires IsTransition(p.state) && Succ(p.state) == TokenState(h) && p.tail == "" && p.width == 0
    ensures Clean(TokenState(h), GetHeader(log, h))
    decreases |text|
  {
    if text[0] == '\n' {
      GivesAtNewline(p, text, log);
    } else if IsBlank(text[0]) {
      var w, q := GivesNext(p, text, log);
      assert w == 1 && q == p;
      EnteredIsClean(p, text[w..], log, h);
    } else {
      ScanEnters(p, text);
      TokenIsClean(p.(state := Succ(p.state)), text, log, h);
    }
  }

  lemma ScanEnters(p: PendingLine, text: string)
    requires IsTransition(p.state) && text != "" && text[0] != '\n' && !IsBlank(text[0])
    ensures Scan(p, text) == Scan(p.(state := Succ(p.state)), text)
  {
    TransitionEnters(p, text[..RuneWidth(text)]);
  }

  /** Level and class, after their blanks. */
  lemma EnteredExact(s: State, l: Record, h: Header, t: string, c: char, rest: string, log: Record)
    requires (h.HLevel? && s.TransitionLevel?) || (h.HClass? && s.TransitionClass?)
    requires Gives(Pending(s, "", 0, l), t + ([c] + rest), log) && GetHeader(l, h) == ""
    requires t != "" && Ends(h, c) && '\n' !in t && GetHeader(log, h) == t
    ensures Raw(TokenState(h), t) && Gives(Pending(StateAfter(h), "", 0, SetHeader(l, h, t)), rest, log)
  {
    var p := Pending(s, "", 0, l);
    EnteredIsClean(p, t + ([c] + rest), log, h);
    assert t[0] in t;
    ScanEnters(p, t + ([c] + rest));
    FieldExact(l, h, t, c, rest, log);
  }

  lemma RawEntered(s: State, l: Record, h: Header, t: string, c: char, rest: string)
    requires (h.HLevel? && s.TransitionLevel?) || (h.HClass? && s.TransitionClass?)
    requires t != "" && Raw(TokenState(h), t) && Ends(h, c)
    ensures Scan(Pending(s, "", 0, l), t + ([c] + rest))
         == Scan(Pending(StateAfter(h), "", 0, SetHeader(l, h, t)), rest)
  {
    ScanEnters(Pending(s, "", 0, l), t + ([c] + rest));
    RawField(l, h, t, c, rest);
  }

  // The header of a printed line

  /** The header fields that come back. An empty thread or class is printed as a dash. */
  predicate HeaderRaw(l: Record) {
    && Raw(Date, l.date)
    && Raw(Time, l.time)
    && Raw(Level, l.level)
    && Raw(ThreadBracket, OrDash(l.thread))
    && Raw(Class, OrDash(l.cls))
  }

  lemma OpenBracket(l: Record, rest: string)
    ensures Scan(Pending(TransitionThread, "", 0, l), "[" + rest) == Scan(Pending(ThreadBracket, "", 0, l), rest)
  {
    ScanFirst(Pending(TransitionThread, "", 0, l), "[" + rest);
    assert ("[" + rest)[1..] == rest;
  }

  lemma TabBeforeClass(l: Record, rest: string)
    ensures Scan(Pending(TransitionClass, "", 0, l), "\t" + rest) == Scan(Pending(TransitionClass, "", 0, l), rest)
  {
    ScanFirst(Pending(TransitionClass, "", 0, l), "\t" + rest);
    assert ("\t" + rest)[1..] == rest;
  }

  /** `[thread]<tab>class<tab>` */
  function SourceRest(thread: string, cls: string, body: string): string {
    "[" + (thread + ("]" + ("\t" + (cls + ("\t" + body)))))
  }

  function LineRest(date: string, time: string, level: string, rest: string): string {
    date + (" " + (time + ("\t" + (level + ("\t" + rest)))))
  }

  lemma LineSplit(l: Record)
    requires Entries(l) != []
    ensures var body := Joined(Entries(l), ", ", ": ") + "\n";
            TextOf(l) + "\n" == LineRest(l.date, l.time, l.level, SourceRest(OrDash(l.thread), OrDash(l.cls), body))
  {
    var body := Joined(Entries(l), ", ", ": ") + "\n";
    TextSplit(l);
    HeaderSplit(l.date, l.time, l.level, OrDash(l.thread), OrDash(l.cls), "\t" + body);
  }

  lemma RawStart(date: string, time: string, level: string, rest: string)
    requires Raw(Date, date) && Raw(Time, time) && Raw(Level, level) && level != ""
    ensures Scan(FRESH, LineRest(date, time, level, rest))
         == Scan(Pending(TransitionThread, "", 0, EMPTY_RECORD.(date := date, time := time, level := level)), rest)
  {
    var l1 := EMPTY_RECORD.(date := date);
    var l2 := l1.(time := time);
    RawField(EMPTY_RECORD, HDate, date, ' ', time + ("\t" + (level + ("\t" + rest))));
    RawField(l1, HTime, time, '\t', level + ("\t" + rest));
    RawEntered(TransitionLevel, l2, HLevel, level, '\t', rest);
  }

  lemma RawThread(l: Record, thread: string, rest: string)
    requires Raw(ThreadBracket, thread)
    ensures Scan(Pending(TransitionThread, "", 0, l), "[" + (thread + ("]" + rest)))
         == Scan(Pending(TransitionClass, "", 0, l.(thread := thread)), rest)
  {
    OpenBracket(l, thread + ("]" + rest));
    RawField(l, HThread, thread, ']', rest);
  }

  lemma RawClass(l: Record, cls: string, body: string)
    requires Raw(Class, cls) && cls != ""
    ensures Scan(Pending(TransitionClass, "", 0, l), "\t" + (cls + ("\t" + body)))
         == Scan(Pending(TransitionCallType, "", 0, l.(cls := cls)), body)
  {
    TabBeforeClass(l, cls + ("\t" + body));
    RawEntered(TransitionClass, l, HClass, cls, '\t', body);
  }

  lemma RawSource(l: Record, thread: string, cls: string, body: string)
    requires Raw(ThreadBracket, thread) && Raw(Class, cls) && cls != ""
    ensures Scan(Pending(TransitionThread, "", 0, l), SourceRest(thread, cls, body))
         == Scan(Pending(TransitionCallType, "", 0, l.(thread := thread, cls := cls)), body)
  {
    RawThread(l, thread, "\t" + (cls + ("\t" + body)));
    RawClass(l.(thread := thread), cls, body);
  }

  /** A raw header is read back, whatever its bytes. */
  lemma RawHeaderRun(l: Record)
    requires HeaderRaw(l) && l.level != "" && Entries(l) != []
    ensures Scan(FRESH, TextOf(l) + "\n")
         == Scan(Pending(TransitionCallType, "", 0, HeaderOnly(l)), Joined(Entries(l), ", ", ": ") + "\n")
  {
    var thread, cls, body := OrDash(l.thread), OrDash(l.cls), Joined(Entries(l), ", ", ": ") + "\n";
    LineSplit(l);
    RawStart(l.date, l.time, l.level, SourceRest(thread, cls, body));
    RawSource(EMPTY_RECORD.(date := l.date, time := l.time, level := l.level), thread, cls, body);
  }

  lemma StartExact(date: string, time: string, level: string, rest: string, log: Record)
    requires Gives(FRESH, LineRest(date, time, level, rest), log) && level != ""
    requires '\n' !in date && '\n' !in time && '\n' !in level
    requires log.date == date && log.time == time && log.level == level
    ensures Raw(Date, date) && Raw(Time, time) && Raw(Level, level)
    ensures var l := EMPTY_RECORD.(date := date, time := time, level := level);
            Gives(Pending(TransitionThread, "", 0, l), rest, log)
  {
    var l1 := EMPTY_RECORD.(date := date);
    var l2 := l1.(time := time);
    FieldExact(EMPTY_RECORD, HDate, date, ' ', time + ("\t" + (level + ("\t" + rest))), log);
    FieldExact(l1, HTime, time, '\t', level + ("\t" + rest), log);
    EnteredExact(TransitionLevel, l2, HLevel, level, '\t', rest, log);
  }

  lemma ThreadExact(l: Record, thread: string, rest: string, log: Record)
    requires Gives(Pending(TransitionThread, "", 0, l), "[" + (thread + ("]" + rest)), log)
    requires l.thread == "" && '\n' !in thread && log.thread == thread
    ensures Raw(ThreadBracket, thread) && Gives(Pending(TransitionClass, "", 0, l.(thread := thread)), rest, log)
  {
    OpenBracket(l, thread + ("]" + rest));
    FieldExact(l, HThread, thread, ']', rest, log);
  }

  lemma ClassExact(l: Record, cls: string, body: string, log: Record)
    requires Gives(Pending(TransitionClass, "", 0, l), "\t" + (cls + ("\t" + body)), log)
    requires l.cls == "" && cls != "" && '\n' !in cls && log.cls == cls
    ensures Raw(Class, cls) && Gives(Pending(TransitionCallType, "", 0, l.(cls := cls)), body, log)
  {
    TabBeforeClass(l, cls + ("\t" + body));
    EnteredExact(TransitionClass, l, HClass, cls, '\t', body, log);
  }

  lemma SourceExact(l: Record, thread: string, cls: string, body: string, log: Record)
    requires Gives(Pending(TransitionThread, "", 0, l), SourceRest(thread, cls, body), log) && cls != ""
    requires l.thread == "" && l.cls == "" && '\n' !in thread && '\n' !in cls
    requires log.thread == thread && log.cls == cls
    ensures Raw(ThreadBracket, thread) && Raw(Class, cls)
    ensures Gives(Pending(TransitionCallType, "", 0, l.(thread := thread, cls := cls)), body, log)
  {
    ThreadExact(l, thread, "\t" + (cls + ("\t" + body)), log);
    ClassExact(l.(thread := thread), cls, body, log);
  }

  /** The header comes back only if it is raw; then the scan is at the body of the line. */
  lemma HeaderExact(l: Record, log: Record)
    requires Entries(l) != [] && l.level != "" && HeaderOnOneLine(l) && Gives(FRESH, TextOf(l) + "\n", log)
    requires log.date == l.date && log.time == l.time && log.level == l.level
    requires log.thread == OrDash(l.thread) && log.cls == OrDash(l.cls)
    ensures HeaderRaw(l)
    ensures Gives(Pending(TransitionCallType, "", 0, HeaderOnly(l)), Joined(Entries(l), ", ", ": ") + "\n", log)
  {
    var thread, cls, body := OrDash(l.thread), OrDash(l.cls), Joined(Entries(l), ", ", ": ") + "\n";
    LineSplit(l);
    StartExact(l.date, l.time, l.level, SourceRest(thread, cls, body), log);
    SourceExact(EMPTY_RECORD.(date := l.date, time := l.time, level := l.level), thread, cls, body, log);
  }
}
