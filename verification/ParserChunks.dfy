/** Feeding a stream in chunks against parsing it at once.

    At a chunk boundary the parser keeps its state and its half-built log, moves the text of the
    open token to the front of the buffer and scans that text again. For ASCII streams the
    exact condition under which no chunking can be told from a one-shot parse is `Sync`.
 */
module ParserChunks {
  import opened Results
  import opened Records
  import opened Text
  import opened ParserSpec
  import opened ParserSafety

  // Runs of ordinary characters

  /** Characters that the state adds to its token whatever the token is. */
  predicate Plain(s: State, c: char) {
    && Ascii(c)
    && c != '\n'
    && match s
       case Date => IsDateChar(c)
       case Time => IsDateChar(c)
       case Level => c !in "[]\t "
       case ThreadBracket => c !in "]\t"
       case ThreadNoBracket => c !in "[]\t "
       case Class => c !in "[]\t "
       case CallType => c != ':'
       case VerifyCallType => c !in " :,"
       case Key => c !in " :"
       case Value => c !in " :,"
       case _ => false
  }

  predicate AllPlain(s: State, t: string) {
    forall k | 0 <= k < |t| :: Plain(s, t[k])
  }

  lemma PlainStep(p: PendingLine, c: char)
    requires Plain(p.state, c)
    ensures Step(p, [c]) == Ok(Extend(p, [c]))
  {
  }

  lemma ScanFirst(p: PendingLine, text: string)
    requires text != "" && Ascii(text[0]) && text[0] != '\n'
    ensures Scan(p, text) ==
            if Step(p, [text[0]]).Panic? then Panic else Scan(Step(p, [text[0]]).value, text[1..])
  {
    assert text[..1] == [text[0]];
  }

  /** A run of ordinary characters joins the token. */
  lemma {:induction false} ScanPlain(p: PendingLine, t: string, rest: string)
    requires AllPlain(p.state, t)
    ensures Scan(p, t + rest) == Scan(p.(tail := p.tail + t, width := p.width + |t|), rest)
    decreases |t|
  {
    if t == "" {
      assert t + rest == rest && p.tail + t == p.tail;
    } else {
      PlainStep(p, t[0]);
      ScanFirst(p, t + rest);
      assert (t + rest)[1..] == t[1..] + rest;
      assert p.tail + [t[0]] + t[1..] == p.tail + t;
      ScanPlain(Extend(p, [t[0]]), t[1..], rest);
    }
  }

  // Streams that may be cut anywhere

  predicate DropsBracket(s: State) {
    s.Date? || s.Time? || s.Level? || s.ThreadNoBracket? || s.Class?
  }

  predicate TrimsKey(s: State) {
    s.VerifyCallType? || s.Key?
  }

  /** The three things after which a token can no longer be scanned again from its start: a
      bracket inside a header token, the end of a key (or first value) with a space in it, and
      a value that starts with a colon. */
  predicate ResumeSafe(p: PendingLine, c: char) {
    && (DropsBracket(p.state) && c == '[' ==> p.width == 0)
    && (TrimsKey(p.state) && (c == ':' || (c == ',' && p.state.VerifyCallType?)) ==> p.width == |p.tail|)
    && (p.state.Value? && c == ':' ==> p.width > 0)
  }

  /** None of them occurs in the text, read from `p` on. */
  predicate Sync(p: PendingLine, text: string)
    decreases |text|
  {
    text == "" ||
    if text[0] == '\n' then
      Sync(FRESH, text[1..])
    else
      && Ascii(text[0])
      && ResumeSafe(p, text[0])
      && Step(p, [text[0]]).Ok?
      && Sync(Step(p, [text[0]]).value, text[1..])
  }

  // Scanning the kept text again

  function Replay(s: State, p: PendingLine): Outcome<Scanned> {
    Scan(Pending(s, "", 0, p.current), p.tail)
  }

  /** The cursors are not behind, except inside a key with a space in it. */
  predicate InStep(p: PendingLine) {
    && Sound(p)
    && AllAscii(p.tail)
    && (p.width == 0 || IsTransition(p.state) ==> p.tail == "")
    && (!TrimsKey(p.state) ==> p.width == |p.tail|)
    && (DropsBracket(p.state) ==> AllPlain(p.state, p.tail))
  }

  /** The kept text leads back to where the scan was, also from the state in which the token
      was opened. */
  predicate Replays(p: PendingLine) {
    && InStep(p)
    && Replay(p.state, p) == Ok(Scanned(p, []))
    && (p.state.Value? || p.state.MultiKey? ==>
          && Replay(Value, p) == Ok(Scanned(p, []))
          && (p.tail != "" ==> p.tail[0] !in " ,:\n"))
  }

  lemma ScanOne(p: PendingLine, c: char)
    requires Ascii(c) && c != '\n' && Step(p, [c]).Ok?
    ensures Scan(p, [c]) == Ok(Scanned(Step(p, [c]).value, []))
  {
    ScanFirst(p, [c]);
    assert [c][1..] == "";
  }

  /** Scanning the token again and then `c`. */
  lemma ReplayMore(from: PendingLine, p: PendingLine, c: char, q: PendingLine)
    requires Scan(from, p.tail) == Ok(Scanned(p, [])) && AllAscii(p.tail)
    requires Scan(p, [c]) == Ok(Scanned(q, []))
    ensures Scan(from, p.tail + [c]) == Ok(Scanned(q, []))
  {
    ScanConcat(from, p.tail, [c]);
    PrependNothing(Scan(p, [c]));
  }

  /** The first character of a value is ordinary, so re-entering in the double-key state, as the
      parser does when cut after a colon, makes no difference. */
  lemma ReplayFromMultiKey(p: PendingLine, t: string)
    requires t != "" && AllAscii(t) && t[0] !in " ,:\n"
    ensures Scan(Pending(MultiKey, "", 0, p.current), t) == Scan(Pending(Value, "", 0, p.current), t)
  {
    var q := Pending(Value, [t[0]], 1, p.current);
    assert "" + [t[0]] == [t[0]];
    assert Step(Pending(MultiKey, "", 0, p.current), [t[0]]) == Ok(q);
    assert Step(Pending(Value, "", 0, p.current), [t[0]]) == Ok(q);
    ScanFirst(Pending(MultiKey, "", 0, p.current), t);
    ScanFirst(Pending(Value, "", 0, p.current), t);
  }

  lemma EmptyReplays(p: PendingLine)
    requires Sound(p) && p.tail == ""
    ensures Replays(p)
  {
  }

  /** The token goes on: same state, same log, one more character. */
  lemma ContinuationReplays(p: PendingLine, c: char, q: PendingLine)
    requires Replays(p) && Sound(q) && !p.state.Value? && !p.state.MultiKey? && !IsTransition(p.state)
    requires Ascii(c) && Scan(p, [c]) == Ok(Scanned(q, []))
    requires q.state == p.state && q.current == p.current && q.tail == p.tail + [c]
    requires q.width > 0 && (!TrimsKey(p.state) ==> q.width == p.width + 1)
    requires DropsBracket(p.state) ==> Plain(p.state, c)
    ensures Replays(q)
  {
    ReplayMore(Pending(p.state, "", 0, p.current), p, c, q);
  }

  /** How a step ends outside the value states. */
  lemma StepOutsideValues(p: PendingLine, c: char)
    requires InStep(p) && Ascii(c) && c != '\n' && ResumeSafe(p, c)
    requires !p.state.Value? && !p.state.MultiKey? && !IsTransition(p.state)
    ensures Step(p, [c]).Ok?
    ensures var q := Step(p, [c]).value;
            || q.tail == ""
            || (&& q.state == p.state && q.current == p.current && q.tail == p.tail + [c]
                && q.width > 0 && (!TrimsKey(p.state) ==> q.width == p.width + 1)
                && (DropsBracket(p.state) ==> Plain(p.state, c)))
  {
  }

  lemma TokenStepReplays(p: PendingLine, c: char)
    requires Replays(p) && Ascii(c) && c != '\n' && ResumeSafe(p, c)
    requires !p.state.Value? && !p.state.MultiKey? && !IsTransition(p.state)
    ensures Step(p, [c]).Ok? && Replays(Step(p, [c]).value)
  {
    StepSafe(p, [c]);
    StepOutsideValues(p, c);
    var q := Step(p, [c]).value;
    if q.tail == "" {
      EmptyReplays(q);
    } else {
      ScanOne(p, c);
      ContinuationReplays(p, c, q);
    }
  }

  /** The state whose token the first character after the blanks opens. */
  function Entered(s: State): State {
    if s.TransitionThread? then ThreadNoBracket else Succ(s)
  }

  lemma TransitionStep(p: PendingLine, c: char)
    requires IsTransition(p.state) && p.tail == ""
    ensures Step(p, [c]).Ok?
    ensures Step(p, [c]).value.tail == "" || Step(p, [c]) == Step(p.(state := Entered(p.state)), [c])
  {
  }

  lemma TransitionReplays(p: PendingLine, c: char)
    requires Replays(p) && Ascii(c) && c != '\n' && IsTransition(p.state)
    ensures Step(p, [c]).Ok? && Replays(Step(p, [c]).value)
  {
    StepSafe(p, [c]);
    TransitionStep(p, c);
    if Step(p, [c]).value.tail == "" {
      EmptyReplays(Step(p, [c]).value);
    } else {
      var q := p.(state := Entered(p.state));
      EmptyReplays(q);
      TokenStepReplays(q, c);
    }
  }

  /** How a step ends in the value states. */
  lemma StepInValues(p: PendingLine, c: char)
    requires Sound(p) && p.width == |p.tail| && ResumeSafe(p, c)
    requires p.state.Value? || p.state.MultiKey?
    ensures Step(p, [c]).Ok?
    ensures var q := Step(p, [c]).value;
            || q.tail == ""
            || (&& (q.state.Value? || q.state.MultiKey?) && q.current == p.current
                && q.tail == p.tail + [c] && q.width == p.width + 1
                && (p.tail == "" ==> c !in " ,:"))
  {
  }

  lemma ValueReplays(p: PendingLine, c: char, q: PendingLine)
    requires Replays(p) && Sound(q) && Ascii(c) && c != '\n' && Scan(p, [c]) == Ok(Scanned(q, []))
    requires p.state.Value? || p.state.MultiKey?
    requires q.state.Value? || q.state.MultiKey?
    requires q.current == p.current && q.tail == p.tail + [c] && q.width == p.width + 1
    requires p.tail == "" ==> c !in " ,:"
    ensures Replays(q)
  {
    ReplayMore(Pending(Value, "", 0, p.current), p, c, q);
    ReplayFromMultiKey(p, q.tail);
  }

  lemma ValueStepReplays(p: PendingLine, c: char)
    requires Replays(p) && Ascii(c) && c != '\n' && ResumeSafe(p, c)
    requires p.state.Value? || p.state.MultiKey?
    ensures Step(p, [c]).Ok? && Replays(Step(p, [c]).value)
  {
    StepSafe(p, [c]);
    StepInValues(p, c);
    var q := Step(p, [c]).value;
    if q.tail == "" {
      EmptyReplays(q);
    } else {
      ScanOne(p, c);
      ValueReplays(p, c, q);
    }
  }

  lemma StepReplays(p: PendingLine, c: char)
    requires Replays(p) && Ascii(c) && c != '\n' && ResumeSafe(p, c)
    ensures Step(p, [c]).Ok? && Replays(Step(p, [c]).value)
  {
    if IsTransition(p.state) {
      TransitionReplays(p, c);
    } else if p.state.Value? || p.state.MultiKey? {
      ValueStepReplays(p, c);
    } else {
      TokenStepReplays(p, c);
    }
  }

  lemma {:induction false} SyncReplays(p: PendingLine, text: string)
    requires Replays(p) && Sync(p, text)
    ensures Scan(p, text).Ok? && Replays(Scan(p, text).value.pending)
    decreases |text|
  {
    if text == "" {
    } else if text[0] == '\n' {
      EmptyReplays(FRESH);
      SyncReplays(FRESH, text[1..]);
    } else {
      StepReplays(p, text[0]);
      ScanFirst(p, text);
      SyncReplays(Step(p, [text[0]]).value, text[1..]);
    }
  }

  /** Where the kept text replays, a resumed parse is a parse that was never interrupted. */
  lemma FeedIsScan(p: PendingLine, chunk: string)
    requires Replays(p)
    ensures Feed(p, chunk) == Scan(p, chunk)
  {
    ScanConcat(Rewind(p), p.tail, chunk);
    PrependNothing(Scan(p, chunk));
  }

  lemma {:induction false} SyncSplit(p: PendingLine, a: string, b: string)
    requires Sync(p, a + b)
    ensures Sync(p, a)
    ensures AllAscii(a)
    ensures Scan(p, a).Ok? && Sync(Scan(p, a).value.pending, b)
    decreases |a|
  {
    if a == "" {
      assert a + b == b;
    } else {
      assert (a + b)[1..] == a[1..] + b;
      if a[0] == '\n' {
        SyncSplit(FRESH, a[1..], b);
      } else {
        ScanFirst(p, a);
        SyncSplit(Step(p, [a[0]]).value, a[1..], b);
      }
      assert a == [a[0]] + a[1..];
    }
  }

  /** Incremental equals batch: any chunking of a `Sync` stream gives the logs and the pending
      line of the one-shot parse. */
  lemma {:induction false} ChunkedEqualsBatch(p: PendingLine, chunks: seq<string>)
    requires Replays(p) && Sync(p, Concat(chunks))
    ensures FeedAll(p, chunks) == Scan(p, Concat(chunks))
    decreases |chunks|
  {
    if chunks != [] {
      var rest := Concat(chunks[1..]);
      SyncSplit(p, chunks[0], rest);
      FeedIsScan(p, chunks[0]);
      SyncReplays(p, chunks[0]);
      ScanConcat(p, chunks[0], rest);
      ChunkedEqualsBatch(Scan(p, chunks[0]).value.pending, chunks[1..]);
    }
  }

  // More text after the chunks

  lemma {:induction false} FeedOneMore(p: PendingLine, chunks: seq<string>, rest: string)
    requires FeedAll(p, chunks).Ok?
    ensures FeedAll(p, chunks + [rest])
         == Prepend(FeedAll(p, chunks).value.logs, Feed(FeedAll(p, chunks).value.pending, rest))
    decreases |chunks|
  {
    if chunks == [] {
      assert chunks + [rest] == [rest] && [rest][1..] == [];
      if Feed(p, rest).Ok? {
        ScanEnd(Feed(p, rest).value.logs, Feed(p, rest).value.pending);
      }
      PrependNothing(Feed(p, rest));
    } else {
      var first, more := Feed(p, chunks[0]).value, chunks[1..];
      assert (chunks + [rest])[0] == chunks[0] && (chunks + [rest])[1..] == more + [rest];
      FeedOneMore(first.pending, more, rest);
      var last := FeedAll(first.pending, more).value;
      PrependTwice(first.logs, last.logs, Feed(last.pending, rest));
    }
  }

  /** Whatever is fed next, any bytes: the result is that of a parse of all the text at once. */
  lemma SyncGoesOn(chunks: seq<string>, rest: string)
    requires Sync(FRESH, Concat(chunks))
    ensures FeedAll(FRESH, chunks + [rest]) == Scan(FRESH, Concat(chunks) + rest)
  {
    var text := Concat(chunks);
    EmptyReplays(FRESH);
    ChunkedEqualsBatch(FRESH, chunks);
    SyncReplays(FRESH, text);
    assert text + "" == text;
    SyncSplit(FRESH, text, "");
    FeedOneMore(FRESH, chunks, rest);
    FeedIsScan(Scan(FRESH, text).value.pending, rest);
    ScanConcat(FRESH, text, rest);
  }

  // The converse: outside `Sync` some chunking gives other logs

  /** Neither parse panics, and both give the same logs. */
  predicate SameLogs(a: Outcome<Scanned>, b: Outcome<Scanned>) {
    a.Ok? && b.Ok? && a.value.logs == b.value.logs
  }

  lemma BracketStep(p: PendingLine)
    requires DropsBracket(p.state)
    ensures Step(p, "[") == Ok(p.(tail := (p.tail + "[")[1..]))
  {
  }

  lemma OtherToken(l: Record, a: string, b: string)
    requires a != b
    ensures ConsumeLog(l, a) != ConsumeLog(l, b)
  {
    if l.props != [] {
      var n := |l.props| - 1;
      assert SetLastValue(l, a).props[n].value == a && SetLastValue(l, b).props[n].value == b;
    }
  }

  /** The log of a line that is resumed and then ends. */
  lemma ResumedLine(q: PendingLine, m: PendingLine)
    requires AllAscii(q.tail) && Scan(Rewind(q), q.tail) == Ok(Scanned(m, []))
    ensures Feed(q, "\n") == Ok(Scanned(FRESH, [ConsumeLog(m.current, m.Token())]))
  {
    ScanConcat(Rewind(q), q.tail, "\n");
    ScanNewline(m);
    PrependNothing(Scan(m, "\n"));
  }

  /** A bracket inside a header token shifts the token; scanning the shifted token drops one more
      character, so the log ends in a shorter one. */
  lemma BracketShows(p: PendingLine, q: PendingLine)
    requires InStep(p) && DropsBracket(p.state) && p.width > 0
    requires q == p.(tail := (p.tail + "[")[1..])
    ensures !SameLogs(Feed(q, "\n"), Scan(q, "\n"))
  {
    var t := p.tail[1..];
    assert q.tail == t + "[";
    ScanPlain(Rewind(q), t, "[");
    assert "" + t == t;
    var m := Rewind(q).(tail := t, width := |t|);
    BracketStep(m);
    ScanOne(m, '[');
    ResumedLine(q, Step(m, "[").value);
    ScanNewline(q);
    OtherToken(q.current, Step(m, "[").value.Token(), q.Token());
  }

  function LastValue(l: Record): string
    requires l.props != []
  {
    l.props[|l.props| - 1].value
  }

  /** Where scanning the kept text of `q` again may have come: not behind the properties of `q`, and
      if `q` was at a key, with its very log until a new property was found. */
  predicate Later(q: PendingLine, x: PendingLine) {
    && Sound(x)
    && (x.state.Key? || x.state.Value? || x.state.MultiKey?)
    && |x.current.props| >= |q.current.props| >= 1
    && (!x.state.Key? ==> LastValue(x.current) == "")
    && (q.state.Key? && |x.current.props| == |q.current.props| ==> x.state.Key? && x.current == q.current)
  }

  lemma StepLater(q: PendingLine, x: PendingLine, c: char)
    requires Later(q, x)
    ensures Step(x, [c]).Ok? && Later(q, Step(x, [c]).value)
  {
    StepSafe(x, [c]);
  }

  lemma {:induction false} ScanLater(q: PendingLine, x: PendingLine, t: string) returns (y: PendingLine)
    requires Later(q, x) && AllAscii(t) && '\n' !in t
    ensures Scan(x, t) == Ok(Scanned(y, [])) && Later(q, y)
    decreases |t|
  {
    if t == "" {
      y := x;
    } else {
      StepLater(q, x, t[0]);
      ScanFirst(x, t);
      y := ScanLater(q, Step(x, [t[0]]).value, t[1..]);
    }
  }

  /** The character that ended the key or value of `q`, read again, leaves a token or a property
      that `q` does not have. */
  lemma LastCharShows(q: PendingLine, x: PendingLine, c: char)
    requires Later(q, x)
    requires if q.state.Key? then c == ',' else c == ':' && LastValue(q.current) == ""
    ensures Step(x, [c]).Ok?
    ensures var y := Step(x, [c]).value; ConsumeLog(y.current, y.Token()) != ConsumeLog(q.current, "")
  {
    StepLater(q, x, c);
    var y := Step(x, [c]).value;
    assert |ConsumeLog(y.current, y.Token()).props| == |y.current.props|;
    assert |ConsumeLog(q.current, "").props| == |q.current.props|;
    if |y.current.props| == |q.current.props| {
      assert y.width > 0 && y.Token() != "";
      if q.state.Key? {
        OtherToken(q.current, y.Token(), "");
      } else {
        assert LastValue(ConsumeLog(q.current, "")) == "";
        assert LastValue(ConsumeLog(y.current, y.Token())) == y.Token();
      }
    }
  }

  lemma KeyCloseStep(p: PendingLine, c: char)
    requires Sound(p) && p.width < |p.tail|
    requires TrimsKey(p.state) && (c == ':' || (c == ',' && p.state.VerifyCallType?))
    ensures Step(p, [c]).Ok?
    ensures var q := Step(p, [c]).value;
            && q.width == 0 && q.tail == (p.tail + [c])[p.width + 1..] && Later(q, Rewind(q))
            && (if c == ',' then q.state.Key? else q.state.Value? && LastValue(q.current) == "")
  {
  }

  /** A key or first value that ends while the cursors are behind leaves text that was already read. */
  lemma LateKeyShows(p: PendingLine, c: char)
    requires Sound(p) && p.width < |p.tail| && AllAscii(p.tail) && '\n' !in p.tail
    requires TrimsKey(p.state) && (c == ':' || (c == ',' && p.state.VerifyCallType?))
    ensures Step(p, [c]).Ok?
    ensures !SameLogs(Feed(Step(p, [c]).value, "\n"), Scan(Step(p, [c]).value, "\n"))
  {
    KeyCloseStep(p, c);
    var q := Step(p, [c]).value;
    var t := p.tail[p.width + 1..];
    assert q.tail == t + [c];
    var x := ScanLater(q, Rewind(q), t);
    LastCharShows(q, x, c);
    ScanConcat(Rewind(q), t, [c]);
    ScanOne(x, c);
    PrependNothing(Scan(x, [c]));
    ResumedLine(q, Step(x, [c]).value);
    ScanNewline(q);
    assert q.Token() == "";
  }

  /** A space and the end of the line. */
  lemma BlankLine(p: PendingLine, q: PendingLine)
    requires Step(p, " ") == Ok(q)
    ensures Scan(p, " \n") == Ok(Scanned(FRESH, [ConsumeLog(q.current, q.Token())]))
  {
    ScanFirst(p, " \n");
    assert " \n"[1..] == "\n";
    ScanNewline(q);
  }

  function Emptied(l: Record): Record
    requires l.props != []
  {
    l.(props := l.props[|l.props| - 1 := Property("", "")])
  }

  lemma EmptyKeyStep(l: Record)
    requires l.props != []
    ensures Step(Pending(MultiKey, ":", 1, l), " ") == Ok(Pending(Value, "", 0, Emptied(l)))
  {
    assert ":"[..0] == "" && (":" + " ")[2..] == "";
  }

  /** A colon and a space where a value should start: an empty key. */
  lemma ColonRead(l: Record)
    requires l.props != []
    ensures Scan(Pending(MultiKey, ":", 1, l), " \n") == Ok(Scanned(FRESH, [ConsumeLog(Emptied(l), "")]))
  {
    EmptyKeyStep(l);
    BlankLine(Pending(MultiKey, ":", 1, l), Pending(Value, "", 0, Emptied(l)));
  }

  /** Cut after the colon, it is read as the first character of the value. */
  lemma ColonResumed(l: Record)
    ensures Feed(Pending(MultiKey, ":", 1, l), " \n") == Ok(Scanned(FRESH, [ConsumeLog(l, ": ")]))
  {
    var x := Pending(Value, ":", 1, l);
    assert "" + ":" == ":" && ":" + " " == ": ";
    assert Step(Pending(MultiKey, "", 0, l), ":") == Ok(x);
    assert Step(x, " ") == Ok(Pending(Value, ": ", 2, l));
    ScanOne(Pending(MultiKey, "", 0, l), ':');
    ScanConcat(Pending(MultiKey, "", 0, l), ":", " \n");
    assert Pending(Value, ": ", 2, l).Token() == ": ";
    BlankLine(x, Pending(Value, ": ", 2, l));
    PrependNothing(Scan(x, " \n"));
  }

  lemma EmptiedDiffers(l: Record)
    requires l.props != []
    ensures ConsumeLog(Emptied(l), "") != ConsumeLog(l, ": ")
  {
    assert LastValue(ConsumeLog(Emptied(l), "")) == "";
    assert LastValue(ConsumeLog(l, ": ")) != "";
  }

  lemma LeadingColonShows(p: PendingLine)
    requires Sound(p) && p.state.Value? && p.tail == ""
    ensures Step(p, ":").Ok?
    ensures !SameLogs(Feed(Step(p, ":").value, " \n"), Scan(Step(p, ":").value, " \n"))
  {
    var l := p.current;
    assert p == Pending(Value, "", 0, l) && "" + ":" == ":";
    assert Step(p, ":") == Ok(Pending(MultiKey, ":", 1, l));
    ColonRead(l);
    ColonResumed(l);
    EmptiedDiffers(l);
  }

  /** Text that makes the cut after an unsafe character visible. */
  function Continuation(s: State): string {
    if s.Value? then " \n" else "\n"
  }

  lemma UnsafeShows(p: PendingLine, c: char)
    requires InStep(p) && Ascii(c) && c != '\n' && '\n' !in p.tail && !ResumeSafe(p, c)
    ensures Step(p, [c]).Ok?
    ensures var q, rest := Step(p, [c]).value, Continuation(p.state); !SameLogs(Feed(q, rest), Scan(q, rest))
  {
    if DropsBracket(p.state) {
      BracketStep(p);
      BracketShows(p, Step(p, "[").value);
    } else if TrimsKey(p.state) {
      LateKeyShows(p, c);
    } else {
      LeadingColonShows(p);
    }
  }

  lemma ReadOneMore(done: string, p: PendingLine, logs: seq<Record>, c: char)
    requires AllAscii(done) && Ascii(c) && c != '\n'
    requires Scan(FRESH, done) == Ok(Scanned(p, logs)) && Step(p, [c]).Ok?
    ensures Scan(FRESH, done + [c]) == Ok(Scanned(Step(p, [c]).value, logs))
  {
    ScanConcat(FRESH, done, [c]);
    ScanOne(p, c);
    assert logs + [] == logs;
  }

  lemma LaterLogsShow(logs: seq<Record>, a: Outcome<Scanned>, b: Outcome<Scanned>)
    requires !SameLogs(a, b)
    ensures !SameLogs(Prepend(logs, a), Prepend(logs, b))
  {
    if a.Ok? && b.Ok? {
      assert (logs + a.value.logs)[|logs|..] == a.value.logs && (logs + b.value.logs)[|logs|..] == b.value.logs;
    }
  }

  /** A difference after one chunk is one of the whole run. */
  lemma CutShows(text: string, q: PendingLine, logs: seq<Record>, rest: string)
    requires AllAscii(text) && Scan(FRESH, text) == Ok(Scanned(q, logs))
    requires !SameLogs(Feed(q, rest), Scan(q, rest))
    ensures Concat([text]) == text
    ensures !SameLogs(FeedAll(FRESH, [text] + [rest]), Scan(FRESH, text + rest))
  {
    assert [text][1..] == [] && text + "" == text && "" + text == text;
    ScanEnd(logs, q);
    FeedOneMore(FRESH, [text], rest);
    ScanConcat(FRESH, text, rest);
    LaterLogsShow(logs, Feed(q, rest), Scan(q, rest));
  }

  /** Outside `Sync`: chunks of the text, and a continuation, for which the logs differ or a step
      panics. */
  lemma {:induction false} FirstUnsafe(done: string, p: PendingLine, logs: seq<Record>, text: string)
      returns (chunks: seq<string>, rest: string)
    requires AllAscii(done) && AllAscii(text)
    requires Scan(FRESH, done) == Ok(Scanned(p, logs)) && Replays(p) && '\n' !in p.tail
    requires !Sync(p, text)
    ensures Concat(chunks) <= done + text
    ensures !SameLogs(FeedAll(FRESH, chunks + [rest]), Scan(FRESH, Concat(chunks) + rest))
    decreases |text|
  {
    var c := text[0];
    var more := done + [c];
    assert done + text == more + text[1..];
    if c != '\n' && !ResumeSafe(p, c) {
      UnsafeShows(p, c);
      ReadOneMore(done, p, logs, c);
      chunks, rest := [more], Continuation(p.state);
      CutShows(more, Step(p, [c]).value, logs, rest);
    } else {
      ScanSafe(FRESH, more);
      OneLogPerNewline(FRESH, more);
      if c == '\n' {
        EmptyReplays(FRESH);
        LineEndIsFresh(FRESH, more);
        chunks, rest := FirstUnsafe(more, FRESH, Scan(FRESH, more).value.logs, text[1..]);
      } else {
        StepReplays(p, c);
        ReadOneMore(done, p, logs, c);
        chunks, rest := FirstUnsafe(more, Step(p, [c]).value, logs, text[1..]);
      }
    }
  }

  /** Feeding the chunks and then `rest` gives the logs of a parse of all of it at once. */
  predicate CutsUnseen(chunks: seq<string>, rest: string) {
    SameLogs(FeedAll(FRESH, chunks + [rest]), Scan(FRESH, Concat(chunks) + rest))
  }

  /** For ASCII text, `Sync` is exactly the condition under which the logs never show how the text, or
      a part of it that has been read, was cut, whatever bytes come next. */
  lemma SyncExactly(text: string)
    requires AllAscii(text)
    ensures Sync(FRESH, text) <==>
            forall chunks: seq<string>, rest: string | Concat(chunks) <= text :: CutsUnseen(chunks, rest)
  {
    if Sync(FRESH, text) {
      forall chunks: seq<string>, rest: string | Concat(chunks) <= text
        ensures CutsUnseen(chunks, rest)
      {
        var n := |Concat(chunks)|;
        assert text == text[..n] + text[n..] && text[..n] == Concat(chunks);
        SyncSplit(FRESH, text[..n], text[n..]);
        SyncGoesOn(chunks, rest);
        ScanSafe(FRESH, Concat(chunks) + rest);
      }
    } else {
      EmptyReplays(FRESH);
      var chunks, rest := FirstUnsafe("", FRESH, [], text);
      assert "" + text == text;
      assert !CutsUnseen(chunks, rest);
    }
  }
}
