/** The double-key rule and the two spellings of the call type, for any text that follows; and a
    line on which feeding in chunks panics. */
module ParserRules {
  import opened Results
  import opened Records
  import opened Text
  import opened ParserSpec
  import opened ParserSafety
  import opened ParserChunks
  import opened Printer
  import opened RoundTrip

  // Last key wins

  /** `k1: k2: ... kn: ` followed by `rest`. */
  function Chain(keys: seq<string>, rest: string): string {
    if keys == [] then rest else keys[0] + (":" + (" " + Chain(keys[1..], rest)))
  }

  /** A key that is read after another key is read as a value until its colon and space. */
  predicate ChainedKey(k: string) {
    ValueText(k) && !AfterColon(k, false)
  }

  /** One more key in the place of a value replaces the key before it. */
  lemma NextKeyReplaces(l: Record, was: string, k: string, rest: string)
    requires ChainedKey(k)
    ensures Scan(Pending(Value, "", 0, WithProp(l, was, "")), k + (":" + (" " + rest)))
         == Scan(Pending(Value, "", 0, WithProp(l, k, "")), rest)
  {
    var l1 := WithProp(l, was, "");
    var after := ":" + (" " + rest);
    RunValue(l1, "", k, false, after);
    assert "" + k == k;
    ColonThenSpace(l, was, k, rest);
  }

  lemma ColonThenSpace(l: Record, was: string, k: string, rest: string)
    ensures Scan(Pending(Value, k, |k|, WithProp(l, was, "")), ":" + (" " + rest))
         == Scan(Pending(Value, "", 0, WithProp(l, k, "")), rest)
  {
    var p := Pending(Value, k, |k|, WithProp(l, was, ""));
    var m := Pending(MultiKey, k + ":", |k| + 1, WithProp(l, was, ""));
    ScanFirst(p, ":" + (" " + rest));
    assert Step(p, ":") == Ok(m);
    assert (":" + (" " + rest))[1..] == " " + rest;
    ScanFirst(m, " " + rest);
    assert (" " + rest)[1..] == rest;
    assert (k + ":")[..|k|] == k && (k + ":" + " ")[|k| + 2..] == "";
    assert WithProp(l, was, "").props[|l.props| := Property(k, "")] == WithProp(l, k, "").props;
  }

  lemma {:induction false} ChainReplaces(l: Record, was: string, keys: seq<string>, rest: string)
    requires forall i | 0 <= i < |keys| :: ChainedKey(keys[i])
    ensures Scan(Pending(Value, "", 0, WithProp(l, was, "")), Chain(keys, rest))
         == Scan(Pending(Value, "", 0, WithProp(l, if keys == [] then was else keys[|keys| - 1], "")), rest)
    decreases |keys|
  {
    if keys != [] {
      NextKeyReplaces(l, was, keys[0], Chain(keys[1..], rest));
      ChainReplaces(l, keys[0], keys[1..], rest);
    }
  }

  /** For any number of keys, `k1: ... kn: v` after the first pair gives exactly one property,
      with the last key, and leaves the earlier properties alone. */
  lemma LastKeyWins(l: Record, keys: seq<string>, v: string, rest: string)
    requires keys != [] && AllPlain(Key, keys[0])
    requires forall i | 1 <= i < |keys| :: ChainedKey(keys[i])
    requires ValueText(v)
    ensures !AfterColon(v, false) ==>
              Scan(Pending(Key, "", 0, l), Chain(keys, v + ("," + (" " + rest))))
              == Scan(Pending(Key, "", 0, WithProp(l, keys[|keys| - 1], v)), rest)
    ensures Scan(Pending(Key, "", 0, l), Chain(keys, v + "\n"))
         == Ok(Scanned(FRESH, [WithProp(l, keys[|keys| - 1], v)]))
  {
    var last := keys[|keys| - 1];
    var comma := v + ("," + (" " + rest));
    RunKey(l, keys[0], Chain(keys[1..], comma));
    ChainReplaces(l, keys[0], keys[1..], comma);
    RunValue(WithProp(l, last, ""), "", v, false, "," + (" " + rest));
    assert "" + v == v;
    RunComma(l, last, v, rest);
    RunKey(l, keys[0], Chain(keys[1..], v + "\n"));
    ChainReplaces(l, keys[0], keys[1..], v + "\n");
    RunValue(WithProp(l, last, ""), "", v, false, "\n");
    RunLast(l, ValueState(AfterColon(v, false)), last, v);
  }

  // Call type

  /** `k: ` right after the call type. */
  lemma RunSecondKey(l: Record, k: string, rest: string)
    requires AllPlain(VerifyCallType, k)
    ensures Goes(Pending(VerifyCallType, "", 0, l), k + (":" + rest), Pending(Value, "", 0, WithProp(l, k, "")), rest)
  {
    WholeToken(k, ':');
    RunToken(VerifyCallType, l, k, ':', rest, Pending(Value, "", 0, WithProp(l, k, "")));
  }

  lemma RunKeyColon(l: Record, k: string, rest: string)
    requires AllPlain(Key, k)
    ensures Goes(Pending(Key, "", 0, l), k + (":" + rest), Pending(Value, "", 0, WithProp(l, k, "")), rest)
  {
    WholeToken(k, ':');
    RunToken(Key, l, k, ':', rest, Pending(Value, "", 0, WithProp(l, k, "")));
  }

  /** `X: k:` */
  lemma PlainSpelling(l: Record, x: string, k: string, rest: string)
    requires FirstKeyText(x) && AllPlain(VerifyCallType, k)
    ensures Scan(Pending(TransitionCallType, "", 0, l), x + (":" + (" " + (k + (":" + rest)))))
         == Scan(Pending(Value, "", 0, WithProp(WithProp(l, KEY_CALL_TYPE, x), k, "")), rest)
  {
    RunCallType(l, x, k + (":" + rest));
    RunSecondKey(WithProp(l, KEY_CALL_TYPE, x), k, rest);
  }

  /** `callType: X, k:` */
  lemma ExplicitSpelling(l: Record, x: string, k: string, rest: string)
    requires l.props == [] && AllPlain(VerifyCallType, x) && AllPlain(Key, k)
    ensures Scan(Pending(TransitionCallType, "", 0, l),
                 KEY_CALL_TYPE + (":" + (" " + (x + ("," + (" " + (k + (":" + rest))))))))
         == Scan(Pending(Value, "", 0, WithProp(WithProp(l, KEY_CALL_TYPE, x), k, "")), rest)
  {
    RunCallType(l, KEY_CALL_TYPE, x + ("," + (" " + (k + (":" + rest)))));
    RunFirstValue(l, KEY_CALL_TYPE, x, k + (":" + rest));
    RunKeyColon(WithProp(l, KEY_CALL_TYPE, x), k, rest);
  }

  /** The bodies `X: k:...` and `callType: X, k:...` parse alike, whatever follows. */
  lemma CallTypeSpellingsAgree(l: Record, x: string, k: string, rest: string)
    requires l.props == []
    requires FirstKeyText(x) && AllPlain(VerifyCallType, x) && AllPlain(VerifyCallType, k)
    ensures Scan(Pending(TransitionCallType, "", 0, l), x + (":" + (" " + (k + (":" + rest)))))
         == Scan(Pending(TransitionCallType, "", 0, l),
                 KEY_CALL_TYPE + (":" + (" " + (x + ("," + (" " + (k + (":" + rest))))))))
  {
    PlainSpelling(l, x, k, rest);
    ExplicitSpelling(l, x, k, rest);
  }

  // A line on which a chunk boundary panics

  const PANIC_RECORD := Record("1", "2", "L", "T", "C", "", [])

  /** A first value with a space in it leaves its colon to be read again. */
  lemma LateKeyRun(l: Record, rest: string)
    ensures Scan(Pending(VerifyCallType, "", 0, l), ['a'] + ([' '] + (['b'] + ([':'] + rest))))
         == Scan(Pending(Value, ":", 0, WithProp(l, "a ", "")), rest)
  {
    var p1: PendingLine := Pending(VerifyCallType, "a", 1, l);
    var p2: PendingLine := Pending(VerifyCallType, "a ", 1, l);
    var p3: PendingLine := Pending(VerifyCallType, "a b", 2, l);
    assert "" + "a" == "a" && "a" + " " == "a " && "a " + "b" == "a b";
    assert "a b"[..2] == "a " && ("a b" + ":")[3..] == ":";
    OneStep(Pending(VerifyCallType, "", 0, l), 'a', [' '] + (['b'] + ([':'] + rest)), p1);
    OneStep(p1, ' ', ['b'] + ([':'] + rest), p2);
    OneStep(p2, 'b', [':'] + rest, p3);
    OneStep(p3, ':', rest, Pending(Value, ":", 0, WithProp(l, "a ", "")));
  }

  /** A key cut right after its colon, with a space before it that was already read. */
  lemma CutKeyRun(l: Record)
    ensures Scan(Pending(Value, ":", 0, l), " c:") == Ok(Scanned(Pending(MultiKey, " c:", 2, l), []))
  {
    var p5: PendingLine := Pending(Value, " ", 0, l);
    var p6: PendingLine := Pending(Value, " c", 1, l);
    assert (":" + " ")[1..] == " " && " " + "c" == " c" && " c" + ":" == " c:";
    assert [' '] + "c:" == " c:" && ['c'] + ":" == "c:" && [':'] + "" == ":";
    OneStep(Pending(Value, ":", 0, l), ' ', "c:", p5);
    OneStep(p5, 'c', ":", p6);
    OneStep(p6, ':', "", Pending(MultiKey, " c:", 2, l));
  }

  const PANIC_BODY := ['a'] + ([' '] + (['b'] + ([':'] + " c:")))

  lemma OneStep(p: PendingLine, c: char, rest: string, q: PendingLine)
    requires Ascii(c) && c != '\n' && Step(p, [c]) == Ok(q)
    ensures Scan(p, [c] + rest) == Scan(q, rest)
  {
    ScanFirst(p, [c] + rest);
    assert ([c] + rest)[1..] == rest;
  }

  function PanicText(): string {
    TimestampText(PANIC_RECORD) + SourceText(PANIC_RECORD) + ("\t" + ("x" + (":" + (" " + PANIC_BODY))))
  }

  /** Read at once, this text is fine; followed by any further chunk, even an empty one, it is not. */
  lemma InnerSpaceCanPanic(chunk: string)
    ensures Scan(FRESH, PanicText()).Ok?
    ensures FeedAll(FRESH, [PanicText(), chunk]).Panic?
  {
    var body := "x" + (":" + (" " + PANIC_BODY));
    var h := HeaderOnly(PANIC_RECORD);
    var l := WithProp(h, KEY_CALL_TYPE, "x");
    RunHeader(PANIC_RECORD, "\t" + body);
    RunClassEnd(PANIC_RECORD, body);
    RunCallType(h, "x", PANIC_BODY);
    LateKeyRun(l, " c:");
    CutKeyRun(WithProp(l, "a ", ""));
    var q: PendingLine := Pending(MultiKey, " c:", 2, WithProp(l, "a ", ""));
    assert Scan(FRESH, PanicText()) == Ok(Scanned(q, []));
    assert " " <= q.tail + chunk;
    ResumePanicsExactly(q, chunk);
    PanicAtSecond(PanicText(), q, chunk);
  }

  lemma PanicAtSecond(first: string, q: PendingLine, chunk: string)
    requires Scan(FRESH, first) == Ok(Scanned(q, [])) && Feed(q, chunk).Panic?
    ensures FeedAll(FRESH, [first, chunk]).Panic?
  {
    assert "" + first == first;
    assert [first, chunk][1..] == [chunk];
  }

  lemma EscapedKeyRead(l: Record, rest: string)
    ensures Scan(Pending(Key, "", 0, l), ['a'] + ([' '] + (['\\'] + (['\\'] + rest))))
         == Scan(Pending(Key, "a \\\\", 3, l), rest)
  {
    var p1: PendingLine := Pending(Key, "a", 1, l);
    var p2: PendingLine := Pending(Key, "a ", 1, l);
    var p3: PendingLine := Pending(Key, "a \\", 2, l);
    var p4: PendingLine := Pending(Key, "a \\\\", 3, l);
    assert "" + "a" == "a" && "a" + " " == "a " && "a " + "\\" == "a \\" && "a \\" + "\\" == "a \\\\";
    OneStep(Pending(Key, "", 0, l), 'a', [' '] + (['\\'] + (['\\'] + rest)), p1);
    OneStep(p1, ' ', ['\\'] + (['\\'] + rest), p2);
    OneStep(p2, '\\', ['\\'] + rest, p3);
    OneStep(p3, '\\', rest, p4);
  }

  lemma EscapedKeyEnd(l: Record)
    ensures Scan(Pending(Key, "a \\\\", 3, l), [':'] + ([' '] + "\n"))
         == Ok(Scanned(FRESH, [WithProp(l, "a \\", "")]))
  {
    var after := WithProp(l, "a \\", "");
    var p: PendingLine := Pending(Value, " ", 0, after);
    assert "a \\\\"[..3] == "a \\" && ("a \\\\" + ":")[4..] == ":" && (":" + " ")[1..] == " ";
    OneStep(Pending(Key, "a \\\\", 3, l), ':', [' '] + "\n", Pending(Value, ":", 0, after));
    OneStep(Pending(Value, ":", 0, after), ' ', "\n", p);
    ScanNewline(p);
    assert SetLastValue(after, "").props == after.props && p.Token() == "";
  }

  /** A key with a space and a backslash in it: the parser drops as much as escaping adds, so the key
      comes back when no other text follows it on the line. */
  lemma EscapedKeyComesBack(l: Record)
    ensures !AllPlain(Key, "a \\") && Escape("a \\") == "a \\\\"
    ensures Scan(Pending(Key, "", 0, l), ['a'] + ([' '] + (['\\'] + (['\\'] + ([':'] + ([' '] + "\n"))))))
         == Ok(Scanned(FRESH, [WithProp(l, "a \\", "")]))
  {
    EscapedKey();
    EscapedKeyRead(l, [':'] + ([' '] + "\n"));
    EscapedKeyEnd(l);
  }

  lemma EscapedKey()
    ensures !AllPlain(Key, "a \\") && Escape("a \\") == "a \\\\"
  {
    assert !Plain(Key, "a \\"[1]);
    assert "a \\"[1..] == " \\" && " \\"[1..] == "\\" && "\\"[1..] == "";
    assert Escape("") == "" && Escape("\\") == "\\\\" + "";
    assert "a \\"[..1] == "a" && " \\"[..1] == " ";
    assert Escape(" \\") == " " + Escape("\\");
    assert Escape("a \\") == "a" + Escape(" \\");
  }
}
