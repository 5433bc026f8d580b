/** What holds of every scan, for every text: no slice or index fails in a one-shot parse, the
    exact condition under which a resumed parse panics, and one log per newline. */
module ParserSafety {
  import opened Results
  import opened Records
  import opened Text
  import opened ParserSpec

  /** In these states the code reads the last property. */
  predicate NeedsProperty(s: State) {
    s.VerifyCallType? || s.Key? || s.MultiKey? || s.Value?
  }

  /** Holds whenever the parser waits for a chunk. */
  predicate Resting(p: PendingLine) {
    && !p.state.Error?
    && !p.state.Thread?
    && (NeedsProperty(p.state) ==> p.current.props != [])
  }

  /** Holds at every rune of a one-shot parse: besides, the token of a double key is not empty. */
  predicate Sound(p: PendingLine) {
    Resting(p) && (p.state.MultiKey? ==> p.width > 0)
  }

  lemma StepSafe(p: PendingLine, r: string)
    requires Sound(p) && r != ""
    ensures Step(p, r).Ok? && Sound(Step(p, r).value)
  {
  }

  /** No one-shot parse panics, whatever the bytes. With the cursors of class Parser, this is
      `start <= end <= i` and non-empty property lists wherever the code indexes them. */
  lemma {:induction false} ScanSafe(p: PendingLine, text: string)
    requires Sound(p)
    ensures Scan(p, text).Ok? && Sound(Scan(p, text).value.pending)
    decreases |text|
  {
    if text == "" {
    } else if text[0] == '\n' {
      ScanSafe(FRESH, text[1..]);
    } else {
      var w := RuneWidth(text);
      StepSafe(p, text[..w]);
      ScanSafe(Step(p, text[..w]).value, text[w..]);
    }
  }

  /** Resuming panics exactly when it re-enters the double-key state on a leading space. */
  lemma ResumePanicsExactly(p: PendingLine, chunk: string)
    requires Resting(p)
    ensures Feed(p, chunk).Panic? <==> p.state.MultiKey? && " " <= p.tail + chunk
    ensures Feed(p, chunk).Ok? ==> Resting(Feed(p, chunk).value.pending)
  {
    var text := p.tail + chunk;
    var q := Rewind(p);
    if !p.state.MultiKey? {
      ScanSafe(q, text);
    } else if text == "" {
    } else if text[0] == '\n' {
      ScanSafe(FRESH, text[1..]);
    } else if text[0] != ' ' {
      var w := RuneWidth(text);
      ScanSafe(Step(q, text[..w]).value, text[w..]);
    }
  }

  /** The run gets as far as chunk `k`, and is then resumed in the double-key state on a space. */
  predicate StopsAt(p: PendingLine, chunks: seq<string>, k: nat)
    requires k < |chunks|
  {
    var before := FeedAll(p, chunks[..k]);
    before.Ok? && before.value.pending.state.MultiKey? && " " <= before.value.pending.tail + chunks[k]
  }

  lemma StopsAtFirst(p: PendingLine, chunks: seq<string>)
    requires Resting(p) && chunks != []
    ensures StopsAt(p, chunks, 0) <==> Feed(p, chunks[0]).Panic?
  {
    ResumePanicsExactly(p, chunks[0]);
    assert chunks[..0] == [];
    assert FeedAll(p, chunks[..0]) == Ok(Scanned(p, []));
  }

  lemma StopsLater(p: PendingLine, chunks: seq<string>, k: nat)
    requires 0 < k < |chunks|
    ensures StopsAt(p, chunks, k) <==>
            Feed(p, chunks[0]).Ok? && StopsAt(Feed(p, chunks[0]).value.pending, chunks[1..], k - 1)
  {
    assert chunks[..k][0] == chunks[0] && chunks[..k][1..] == chunks[1..][..k - 1];
    assert chunks[1..][k - 1] == chunks[k];
  }

  /** A whole run of chunks is stopped only by such a resumption. */
  lemma {:induction false} RunPanicsExactly(p: PendingLine, chunks: seq<string>)
    requires Resting(p)
    ensures FeedAll(p, chunks).Panic? <==> exists k | 0 <= k < |chunks| :: StopsAt(p, chunks, k)
    ensures FeedAll(p, chunks).Ok? ==> Resting(FeedAll(p, chunks).value.pending)
    decreases |chunks|
  {
    if chunks != [] {
      StopsAtFirst(p, chunks);
      ResumePanicsExactly(p, chunks[0]);
      if Feed(p, chunks[0]).Ok? {
        var q := Feed(p, chunks[0]).value.pending;
        RunPanicsExactly(q, chunks[1..]);
        if k :| 0 <= k < |chunks| && StopsAt(p, chunks, k) {
          StopsLater(p, chunks, k);
        }
        if k :| 0 <= k < |chunks| - 1 && StopsAt(q, chunks[1..], k) {
          StopsLater(p, chunks, k + 1);
        }
      }
    }
  }

  /** Going on with more text after a scan. */
  function Then(o: Outcome<Scanned>, more: string): Outcome<Scanned> {
    if o.Panic? then Panic else Prepend(o.value.logs, Scan(o.value.pending, more))
  }

  lemma {:induction false} ScanConcat(p: PendingLine, a: string, b: string)
    requires Settled(a)
    ensures Scan(p, a + b) == Then(Scan(p, a), b)
    decreases |a|
  {
    if a == "" {
      assert a + b == b;
      PrependNothing(Scan(p, b));
    } else if a[0] == '\n' {
      assert (a + b)[1..] == a[1..] + b;
      ScanConcat(FRESH, a[1..], b);
      var log := ConsumeLog(p.current, p.Token());
      if Scan(FRESH, a[1..]).Ok? {
        var mid := Scan(FRESH, a[1..]).value;
        PrependTwice([log], mid.logs, Scan(mid.pending, b));
      }
    } else {
      RuneWidthOfPrefix(a, b);
      var w := RuneWidth(a);
      assert (a + b)[..w] == a[..w] && (a + b)[w..] == a[w..] + b;
      if Step(p, a[..w]).Ok? {
        ScanConcat(Step(p, a[..w]).value, a[w..], b);
      }
    }
  }

  /** Blanks are over: the state after the transition reads the rune. */
  lemma TransitionEnters(p: PendingLine, r: string)
    requires IsTransition(p.state) && r != "" && !IsBlank(r[0])
    ensures Step(p, r) == Step(p.(state := Succ(p.state)), r)
  {
  }

  // Newlines

  lemma ScanNewline(p: PendingLine)
    ensures Scan(p, "\n") == Ok(Scanned(FRESH, [ConsumeLog(p.current, p.Token())]))
  {
    assert "\n"[1..] == "";
    var log := ConsumeLog(p.current, p.Token());
    assert [log] + [] == [log];
  }

  /** A step only ever drops text from the front of what is kept. */
  predicate CutFrom(kept: string, p: PendingLine, r: string)
    requires r != ""
  {
    kept in {p.tail + r, (p.tail + r)[1..], (p.tail + r)[p.width + 1..]}
  }

  lemma CutHasNoNewline(kept: string, p: PendingLine, r: string)
    requires r != "" && CutFrom(kept, p, r) && '\n' !in p.tail && '\n' !in r
    ensures '\n' !in kept
  {
  }

  lemma StepKeepsSuffix(p: PendingLine, r: string)
    requires r != "" && Step(p, r).Ok?
    ensures CutFrom(Step(p, r).value.tail, p, r)
    decreases IsTransition(p.state)
  {
    if IsTransition(p.state) && !IsBlank(r[0]) {
      var q := p.(state := Succ(p.state));
      StepKeepsSuffix(q, r);
    } else {
      assert Extend(p, r).tail == p.tail + r;
      assert Skip(p, r).tail == (p.tail + r)[1..];
      assert forall s, l :: Close(p, r, s, l).tail == (p.tail + r)[p.width + 1..];
    }
  }

  lemma {:induction false} OneLogPerNewline(p: PendingLine, text: string)
    requires Scan(p, text).Ok? && '\n' !in p.tail
    ensures |Scan(p, text).value.logs| == Newlines(text)
    ensures '\n' !in Scan(p, text).value.pending.tail
    decreases |text|
  {
    if text == "" {
    } else if text[0] == '\n' {
      OneLogPerNewline(FRESH, text[1..]);
    } else {
      var w := RuneWidth(text);
      assert text == text[..w] + text[w..];
      assert '\n' !in text[..w];
      StepKeepsSuffix(p, text[..w]);
      CutHasNoNewline(Step(p, text[..w]).value.tail, p, text[..w]);
      OneLogPerNewline(Step(p, text[..w]).value, text[w..]);
      NewlinesConcat(text[..w], text[w..]);
      NoNewlines(text[..w]);
    }
  }

  /** For every chunking that does not panic, the logs emitted are as many as the newlines fed. */
  lemma {:induction false} LogsEqualNewlines(p: PendingLine, chunks: seq<string>)
    requires FeedAll(p, chunks).Ok? && '\n' !in p.tail
    ensures |FeedAll(p, chunks).value.logs| == Newlines(Concat(chunks))
    ensures '\n' !in FeedAll(p, chunks).value.pending.tail
    decreases |chunks|
  {
    if chunks != [] {
      var first := Feed(p, chunks[0]).value;
      OneLogPerNewline(Rewind(p), p.tail + chunks[0]);
      NewlinesConcat(p.tail, chunks[0]);
      NoNewlines(p.tail);
      LogsEqualNewlines(first.pending, chunks[1..]);
      NewlinesConcat(chunks[0], Concat(chunks[1..]));
    }
  }

  predicate EndsLine(s: string) {
    s != "" && s[|s| - 1] == '\n'
  }

  lemma {:induction false} LineEndIsFresh(p: PendingLine, text: string)
    requires Scan(p, text).Ok? && EndsLine(text)
    ensures Scan(p, text).value.pending == FRESH
    decreases |text|
  {
    if text[0] == '\n' {
      if |text| > 1 {
        LineEndIsFresh(FRESH, text[1..]);
      }
    } else {
      var w := RuneWidth(text);
      assert w < |text|;
      LineEndIsFresh(Step(p, text[..w]).value, text[w..]);
    }
  }

  function ParsedLogs(text: string): (logs: seq<Record>)
    ensures |logs| == Newlines(text)
  {
    ScanSafe(FRESH, text);
    OneLogPerNewline(FRESH, text);
    Scan(FRESH, text).value.logs
  }

  /** Parsing is a homomorphism: on whole lines, concatenation becomes list append. */
  lemma LinesAppend(a: string, b: string)
    requires EndsLine(a)
    ensures ParsedLogs(a + b) == ParsedLogs(a) + ParsedLogs(b)
  {
    ScanSafe(FRESH, a);
    ScanSafe(FRESH, b);
    LineEndIsFresh(FRESH, a);
    ScanConcat(FRESH, a, b);
  }

  function ParsedChunks(chunks: seq<string>): seq<Record> {
    if chunks == [] then [] else ParsedLogs(chunks[0]) + ParsedChunks(chunks[1..])
  }

  /** Chunks that end lines never panic, leave nothing pending, and give the logs of the whole,
      for every text. */
  lemma {:induction false} LineChunksAreExact(chunks: seq<string>)
    requires forall k | 0 <= k < |chunks| :: EndsLine(chunks[k])
    ensures FeedAll(FRESH, chunks) == Ok(Scanned(FRESH, ParsedChunks(chunks)))
    ensures ParsedChunks(chunks) == ParsedLogs(Concat(chunks))
  {
    if chunks != [] {
      ScanSafe(FRESH, chunks[0]);
      LineEndIsFresh(FRESH, chunks[0]);
      assert "" + chunks[0] == chunks[0];
      LineChunksAreExact(chunks[1..]);
      LinesAppend(chunks[0], Concat(chunks[1..]));
    }
  }
}
