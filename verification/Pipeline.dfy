/** The parser at work: what a caller of the class gets. */
module Pipeline {
  import opened Results
  import opened Records
  import opened Text
  import opened ParserSpec
  import opened ParserSafety
  import opened ParserChunks
  import ParserObject

  /** A whole text never makes the parser panic, and gives its logs, one for each newline. */
  method ParseText(raw: string) returns (logs: seq<Record>)
    ensures logs == ParsedLogs(raw) && |logs| == Newlines(raw)
  {
    ScanSafe(FRESH, raw);
    var ok;
    ok, logs := ParserObject.Parse(raw);
  }

  /** What a parser holds between two calls: the cursors are gone. */
  function AtRest(o: Outcome<Scanned>): Outcome<Scanned> {
    if o.Panic? then Panic else Ok(o.value.(pending := o.value.pending.(width := 0)))
  }

  /** It does not matter whether they were there. */
  lemma FeedAtRest(p: PendingLine, chunks: seq<string>)
    ensures AtRest(FeedAll(p, chunks)) == AtRest(FeedAll(p.(width := 0), chunks))
  {
    if chunks != [] {
      assert Feed(p, chunks[0]) == Feed(p.(width := 0), chunks[0]);
    }
  }

  lemma FeedFirst(p: PendingLine, chunks: seq<string>)
    requires chunks != []
    ensures var o := Feed(p, chunks[0]);
            AtRest(FeedAll(p, chunks))
            == if o.Panic? then Panic
               else Prepend(o.value.logs, AtRest(FeedAll(o.value.pending.(width := 0), chunks[1..])))
  {
    if Feed(p, chunks[0]).Ok? {
      FeedAtRest(Feed(p, chunks[0]).value.pending, chunks[1..]);
    }
  }

  /** Feeding a parser chunk by chunk is `FeedAll`: same panics, same logs, same text and half-built
      log left over. */
  method FeedChunks(parser: ParserObject.Parser, chunks: seq<string>) returns (ok: bool, logs: seq<Record>)
    requires parser.start == parser.end == 0
    modifies parser
    ensures ok == FeedAll(old(parser.Kept()), chunks).Ok?
    ensures ok ==> && parser.start == parser.end == 0
                   && AtRest(FeedAll(old(parser.Kept()), chunks)) == Ok(Scanned(parser.Kept(), logs))
  {
    logs := [];
    ghost var target := AtRest(FeedAll(parser.Kept(), chunks));
    PrependNothing(target);
    assert chunks[0..] == chunks;
    var k := 0;
    while k < |chunks|
      invariant 0 <= k <= |chunks|
      invariant parser.start == parser.end == 0
      invariant target == Prepend(logs, AtRest(FeedAll(parser.Kept(), chunks[k..])))
    {
      ghost var before, done := parser.Kept(), logs;
      FeedFirst(before, chunks[k..]);
      assert chunks[k..][1..] == chunks[k + 1..];
      ok, logs := parser.Parse(chunks[k], logs);
      if !ok {
        return;
      }
      PrependTwice(done, Feed(before, chunks[k]).value.logs, AtRest(FeedAll(parser.Kept(), chunks[k + 1..])));
      k := k + 1;
    }
    assert chunks[k..] == [];
    ScanEnd(logs, parser.Kept());
    ok := true;
  }

  /** The loop of the program over what it reads: the logs that it hands to the script. When the text
      read is `Sync`, they are those of the whole text, wherever the reads ended. */
  method RunPipeline(chunks: seq<string>) returns (ok: bool, logs: seq<Record>)
    ensures ok == FeedAll(FRESH, chunks).Ok?
    ensures ok ==> logs == FeedAll(FRESH, chunks).value.logs && |logs| == Newlines(Concat(chunks))
    ensures Sync(FRESH, Concat(chunks)) ==> ok && logs == ParsedLogs(Concat(chunks))
  {
    var parser := new ParserObject.Parser();
    ok, logs := FeedChunks(parser, chunks);
    if ok {
      LogsEqualNewlines(FRESH, chunks);
    }
    if Sync(FRESH, Concat(chunks)) {
      EmptyReplays(FRESH);
      ChunkedEqualsBatch(FRESH, chunks);
      ScanSafe(FRESH, Concat(chunks));
    }
  }
}
