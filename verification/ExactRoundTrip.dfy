/** Which entries come back from a printed line, and with them the exact condition under which
    parsing undoes printing. */
module ExactRoundTrip {
  import opened Results
  import opened Records
  import opened Text
  import opened ParserSpec
  import opened ParserSafety
  import opened ParserChunks
  import opened Printer
  import opened RoundTrip
  import opened ExactHeader

  /** The rest of a line of ASCII text. */
  predicate LineText(text: string) {
    EndsLine(text) && AllAscii(text) && '\n' !in text[..|text| - 1]
  }

  lemma LineTail(text: string)
    requires LineText(text) && text[0] != '\n'
    ensures |text| > 1 && LineText(text[1..])
  {
    assert forall k | 0 <= k < |text| - 1 :: text[1..][k] == text[k + 1];
    assert text[1..][..|text| - 2] == text[..|text| - 1][1..];
  }

  lemma LineFirst(text: string)
    requires LineText(text) && |text| > 1
    ensures text[0] != '\n' && Ascii(text[0])
  {
    assert text[0] in text[..|text| - 1];
  }

  lemma LineEnd(text: string)
    requires LineText(text) && text[0] == '\n'
    ensures text == "\n"
  {
  }

  lemma FirstChar(v: string, rest: string)
    ensures v != "" ==> (v + rest)[0] == v[0] && (v + rest)[1..] == v[1..] + rest && v == [v[0]] + v[1..]
  {
  }

  lemma GivesAscii(p: PendingLine, text: string, log: Record) returns (q: PendingLine)
    requires Gives(p, text, log) && LineText(text) && text[0] != '\n'
    ensures Step(p, [text[0]]) == Ok(q) && Gives(q, text[1..], log) && LineText(text[1..])
  {
    LineTail(text);
    ScanFirst(p, text);
    q := Step(p, [text[0]]).value;
  }

  predicate InProps(s: State) {
    s.Key? || s.Value? || s.MultiKey?
  }

  function LastProp(l: Record): Property
    requires l.props != []
  {
    l.props[|l.props| - 1]
  }

  // Properties that were read before stay

  lemma EarlierStep(p: PendingLine, c: char, m: nat)
    requires InProps(p.state) && m < |p.current.props| && Step(p, [c]).Ok?
    ensures var q := Step(p, [c]).value;
            InProps(q.state) && m < |q.current.props| && q.current.props[..m] == p.current.props[..m]
  {
  }

  lemma {:induction false} EarlierFixed(p: PendingLine, text: string, log: Record, m: nat)
    requires Gives(p, text, log) && LineText(text) && InProps(p.state) && m < |p.current.props|
    ensures m < |log.props| && log.props[..m] == p.current.props[..m]
    decreases |text|
  {
    if text[0] == '\n' {
      GivesAtNewline(p, text, log);
    } else {
      var q := GivesAscii(p, text, log);
      EarlierStep(p, text[0], m);
      EarlierFixed(q, text[1..], log, m);
    }
  }

  /** What can become of a finished property: nothing, or if its value was empty and no further key
      comes, the value takes what is left of the line. */
  ghost predicate Fate(p: PendingLine, text: string, log: Record)
    requires p.current.props != []
  {
    var j := |p.current.props| - 1;
    && j < |log.props|
    && log.props[..j] == p.current.props[..j]
    && log.props[j].key == LastProp(p.current).key
    && (log.props[j].value != LastProp(p.current).value ==>
          LastProp(p.current).value == "" && ':' !in text && |log.props[j].value| < p.width + |text|)
  }

  lemma KeyStepKeeps(p: PendingLine, c: char)
    requires p.state.Key? && c != ':'
    ensures Step(p, [c]).Ok?
    ensures var q := Step(p, [c]).value; q.state.Key? && q.current == p.current && q.width <= p.width + 1
  {
  }

  lemma NewKey(p: PendingLine)
    requires p.state.Key?
    ensures Step(p, ":").Ok?
    ensures var q := Step(p, ":").value;
            q.state.Value? && q.current == WithProp(p.current, p.Token(), "")
  {
  }

  lemma FateAtNewKey(p: PendingLine, text: string, log: Record, q: PendingLine)
    requires p.state.Key? && p.current.props != [] && q.state.Value? && q.current == WithProp(p.current, p.Token(), "")
    requires text != "" && LineText(text[1..]) && Gives(q, text[1..], log)
    ensures Fate(p, text, log)
  {
    var n := |p.current.props|;
    EarlierFixed(q, text[1..], log, n);
    assert q.current.props[..n] == p.current.props;
    assert log.props[..n][n - 1] == LastProp(p.current);
    assert log.props[..n - 1] == log.props[..n][..n - 1];
  }

  lemma {:induction false} KeyFate(p: PendingLine, text: string, log: Record)
    requires Gives(p, text, log) && LineText(text) && p.state.Key? && p.current.props != []
    ensures Fate(p, text, log)
    decreases |text|
  {
    if text[0] == '\n' {
      LineEnd(text);
      GivesAtNewline(p, text, log);
    } else {
      var q := GivesAscii(p, text, log);
      assert text == [text[0]] + text[1..];
      if text[0] == ':' {
        NewKey(p);
        FateAtNewKey(p, text, log, q);
      } else {
        KeyStepKeeps(p, text[0]);
        KeyFate(q, text[1..], log);
      }
    }
  }

  // A key that is still waiting for its value

  /** No colon and space before the comma that ends the value: the key is not replaced. */
  predicate Calm(s: State, text: string)
    decreases |text|
  {
    || text == "" || text[0] == '\n'
    || (if s.MultiKey? then text[0] != ' ' && Calm(Value, text[1..])
        else text[0] == ',' || Calm(if text[0] == ':' then MultiKey else Value, text[1..]))
  }

  lemma OpenStep(p: PendingLine, c: char)
    requires (p.state.Value? && c != ',') || (p.state.MultiKey? && c != ' ')
    ensures Step(p, [c]).Ok?
    ensures var q := Step(p, [c]).value;
            q.current == p.current && q.state == if p.state.Value? && c == ':' then MultiKey else Value
  {
  }

  lemma ValueEnds(p: PendingLine)
    requires p.state.Value? && p.current.props != []
    ensures Step(p, ",").Ok?
    ensures var q := Step(p, ",").value;
            q.state.Key? && q.current == SetLastValue(p.current, p.Token()) && q.width == 0
  {
  }

  lemma {:induction false} OpenKeyFixed(p: PendingLine, text: string, log: Record)
    requires Gives(p, text, log) && LineText(text) && (p.state.Value? || p.state.MultiKey?)
    requires p.current.props != [] && Calm(p.state, text)
    ensures |log.props| >= |p.current.props|
    ensures log.props[|p.current.props| - 1].key == LastProp(p.current).key
    decreases |text|
  {
    if text[0] == '\n' {
      GivesAtNewline(p, text, log);
    } else {
      var q := GivesAscii(p, text, log);
      if p.state.Value? && text[0] == ',' {
        ValueEnds(p);
        KeyFate(q, text[1..], log);
      } else {
        OpenStep(p, text[0]);
        OpenKeyFixed(q, text[1..], log);
      }
    }
  }

  // Later keys

  /** Reading a key adds at most its length to the token, and that much only if it has no space. */
  lemma {:induction false} KeyWidth(p: PendingLine, k: string, rest: string, log: Record) returns (q: PendingLine)
    requires Gives(p, k + rest, log) && LineText(k + rest) && rest != "" && p.state.Key?
    requires ':' !in k && '\n' !in k
    ensures Gives(q, rest, log) && LineText(rest) && q.state.Key? && q.current == p.current
    ensures q.width <= p.width + |k| && (q.width == p.width + |k| ==> AllPlain(Key, k))
    decreases |k|
  {
    if k == "" {
      assert k + rest == rest;
      q := p;
    } else {
      var m := GivesAscii(p, k + rest, log);
      FirstChar(k, rest);
      KeyStepWidth(p, k[0]);
      q := KeyWidth(m, k[1..], rest, log);
      if q.width == p.width + |k| {
        AllPlainCons(Key, k);
      }
    }
  }

  lemma KeyStepWidth(p: PendingLine, c: char)
    requires p.state.Key? && c != ':'
    ensures Step(p, [c]).Ok?
    ensures var q := Step(p, [c]).value;
            q.state.Key? && q.current == p.current && q.width == if c == ' ' then p.width else p.width + 1
  {
  }

  lemma AllPlainCons(s: State, t: string)
    requires t != "" && Plain(s, t[0]) && AllPlain(s, t[1..])
    ensures AllPlain(s, t)
  {
    forall k | 0 <= k < |t| ensures Plain(s, t[k]) {
      if k > 0 {
        assert t[k] == t[1..][k - 1];
      }
    }
  }

  /** Values in which no colon is followed by a space, up to the first comma that would end them. */
  predicate Held(v: string, colon: bool)
    decreases |v|
  {
    || v == ""
    || (if colon then v[0] != ' ' && Held(v[1..], false) else v[0] == ',' || Held(v[1..], v[0] == ':'))
  }

  predicate AfterEntry(rest: string) {
    rest == "\n" || (rest != "" && rest[0] == ',')
  }

  lemma {:induction false} HeldIsCalm(v: string, colon: bool, rest: string)
    requires Held(v, colon) && AfterEntry(rest) && (rest != "\n" ==> !AfterColon(v, colon))
    ensures Calm(if colon then MultiKey else Value, v + rest)
    decreases |v|
  {
    if v == "" {
      assert v + rest == rest;
    } else {
      assert (v + rest)[0] == v[0] && (v + rest)[1..] == v[1..] + rest;
      if colon {
        HeldIsCalm(v[1..], false, rest);
      } else if v[0] != ',' {
        HeldIsCalm(v[1..], v[0] == ':', rest);
      }
    }
  }

  lemma KeyExact(l: Record, k: string, v: string, rest: string, log: Record)
    requires Gives(Pending(Key, "", 0, l), k + (":" + (" " + (v + rest))), log)
    requires LineText(k + (":" + (" " + (v + rest)))) && ':' !in k && '\n' !in k
    requires Held(v, false) && AfterEntry(rest) && (rest != "\n" ==> !AfterColon(v, false))
    requires |log.props| > |l.props| && log.props[|l.props|].key == k
    ensures AllPlain(Key, k)
  {
    var after := " " + (v + rest);
    var q := KeyWidth(Pending(Key, "", 0, l), k, ":" + after, log);
    var m := GivesAscii(q, ":" + after, log);
    assert (":" + after)[1..] == after;
    NewKey(q);
    HeldIsCalm(v, false, rest);
    assert after[1..] == v + rest;
    OpenKeyFixed(m, after, log);
    assert |q.Token()| == q.width;
  }

  // Values

  lemma ValueStepWidth(p: PendingLine, c: char)
    requires (p.state.Value? && c != ',') || (p.state.MultiKey? && c != ' ')
    requires p.width == |p.tail|
    ensures Step(p, [c]).Ok?
    ensures var q := Step(p, [c]).value;
            && q.width == |q.tail|
            && q.width == if p.state.Value? && c == ' ' && p.width == 0 then 0 else p.width + 1
  {
  }

  /** The length that the value of the last property of `p` has in the end. */
  function FinalLength(p: PendingLine, log: Record): nat {
    var j := |p.current.props| - 1;
    if 0 <= j < |log.props| then |log.props[j].value| else 0
  }

  predicate OpenProp(p: PendingLine) {
    p.current.props != [] && LastProp(p.current).value == "" && (p.state.Value? || p.state.MultiKey?)
  }

  lemma LengthAtEnd(p: PendingLine, rest: string, log: Record)
    requires Gives(p, rest, log) && LineText(rest) && OpenProp(p)
    requires rest == "\n" || (rest[0] == ',' && p.state.Value? && ':' in rest[1..])
    ensures FinalLength(p, log) == p.width
  {
    if rest == "\n" {
      GivesAtNewline(p, rest, log);
      assert |p.Token()| == p.width;
    } else {
      var q := GivesAscii(p, rest, log);
      ValueEnds(p);
      KeyFate(q, rest[1..], log);
      assert |p.Token()| == p.width;
    }
  }

  lemma LengthAtComma(p: PendingLine, v: string, rest: string, log: Record)
    requires Gives(p, v + rest, log) && LineText(v + rest) && OpenProp(p) && p.state.Value?
    requires v != "" && v[0] == ',' && (rest == "\n" || ':' in rest)
    ensures FinalLength(p, log) < p.width + |v|
  {
    var q := GivesAscii(p, v + rest, log);
    var text := v[1..] + rest;
    assert (v + rest)[0] == ',' && (v + rest)[1..] == text;
    ValueEnds(p);
    KeyFate(q, text, log);
    assert |p.Token()| == p.width && |q.current.props| == |p.current.props|;
    assert rest != "\n" ==> ':' in text;
    assert rest == "\n" ==> |text| == |v|;
  }

  /** The property keeps a value of the full length only if all of `v` is a value text. */
  predicate WidthOk(p: PendingLine, v: string, log: Record) {
    && FinalLength(p, log) <= p.width + |v|
    && (FinalLength(p, log) == p.width + |v| ==>
          ValueBody(v, p.state.MultiKey?) && (p.width == 0 ==> !(" " <= v)))
  }

  predicate ReadsValue(p: PendingLine, v: string, rest: string) {
    && OpenProp(p) && p.width == |p.tail| && (p.state.MultiKey? ==> p.width > 0)
    && Held(v, p.state.MultiKey?)
    && (rest == "\n" || (rest != "" && rest[0] == ',' && ':' in rest[1..] && !AfterColon(v, p.state.MultiKey?)))
  }

  lemma {:induction false} ValueWidth(p: PendingLine, v: string, rest: string, log: Record)
    requires Gives(p, v + rest, log) && LineText(v + rest) && ReadsValue(p, v, rest)
    ensures WidthOk(p, v, log)
    decreases |v|
  {
    if v == "" {
      assert v + rest == rest;
      LengthAtEnd(p, rest, log);
    } else if p.state.Value? && v[0] == ',' {
      LengthAtComma(p, v, rest, log);
    } else {
      var q := ValueNext(p, v, rest, log);
      ValueWidth(q, v[1..], rest, log);
      WidthCons(p, v, q, log);
    }
  }

  lemma WidthCons(p: PendingLine, v: string, q: PendingLine, log: Record)
    requires v != "" && Ascii(v[0]) && v[0] != '\n' && v[0] != if p.state.MultiKey? then ' ' else ','
    requires WidthOk(q, v[1..], log) && q.current == p.current && OpenProp(p)
    requires q.state == if p.state.Value? && v[0] == ':' then MultiKey else Value
    requires q.width == if p.state.Value? && v[0] == ' ' && p.width == 0 then 0 else p.width + 1
    ensures WidthOk(p, v, log)
  {
    BodyCons(v, p.state.MultiKey?);
  }

  lemma BodyCons(v: string, colon: bool)
    requires v != "" && v[0] != if colon then ' ' else ','
    ensures Held(v, colon) ==> Held(v[1..], !colon && v[0] == ':')
    ensures AfterColon(v, colon) == AfterColon(v[1..], !colon && v[0] == ':')
    ensures Ascii(v[0]) && v[0] != '\n' && ValueBody(v[1..], !colon && v[0] == ':') ==> ValueBody(v, colon)
  {
  }

  /** One more character of an open value. */
  lemma ValueNext(p: PendingLine, v: string, rest: string, log: Record) returns (q: PendingLine)
    requires Gives(p, v + rest, log) && LineText(v + rest) && ReadsValue(p, v, rest)
    requires v != "" && rest != "" && v[0] != if p.state.MultiKey? then ' ' else ','
    ensures Gives(q, v[1..] + rest, log) && LineText(v[1..] + rest) && ReadsValue(q, v[1..], rest)
    ensures q.current == p.current && q.state == if p.state.Value? && v[0] == ':' then MultiKey else Value
    ensures q.width == if p.state.Value? && v[0] == ' ' && p.width == 0 then 0 else p.width + 1
    ensures Ascii(v[0]) && v[0] != '\n'
  {
    LineFirst(v + rest);
    q := GivesAscii(p, v + rest, log);
    FirstChar(v, rest);
    OpenStep(p, v[0]);
    ValueStepWidth(p, v[0]);
    BodyCons(v, p.state.MultiKey?);
  }

  lemma ValueExact(l: Record, v: string, rest: string, log: Record)
    requires Gives(Pending(Value, "", 0, l), v + rest, log) && LineText(v + rest)
    requires l.props != [] && LastProp(l).value == "" && Held(v, false)
    requires rest == "\n" || (rest != "" && rest[0] == ',' && ':' in rest[1..] && !AfterColon(v, false))
    requires |log.props| >= |l.props| && log.props[|l.props| - 1].value == v
    ensures ValueText(v)
  {
    ValueWidth(Pending(Value, "", 0, l), v, rest, log);
  }

  // All entries after the first

  /** What is assumed of the entries after the first: printable text, no colon in a key, and in values
      no colon that is followed by a space or, but for the last value, ends the value. */
  predicate Simple(es: seq<Property>) {
    forall k | 0 <= k < |es| ::
      && Printable(es[k].key) && Printable(es[k].value)
      && ':' !in es[k].key && Held(es[k].value, false)
      && (k < |es| - 1 ==> !AfterColon(es[k].value, false))
  }

  lemma PrintableOnOneLine(s: string)
    requires Printable(s)
    ensures '\n' !in s && AllAscii(s)
  {
  }

  /** The entries as text: it ends the line, and holds a colon. */
  lemma {:induction false} EntriesText(es: seq<Property>)
    requires es != [] && forall k | 0 <= k < |es| :: Printable(es[k].key) && Printable(es[k].value)
    ensures LineText(Joined(es, ", ", ": ") + "\n") && ':' in Joined(es, ", ", ": ") + "\n"
    decreases |es|
  {
    var k, v := es[0].key, es[0].value;
    PrintableOnOneLine(k);
    PrintableOnOneLine(v);
    if |es| == 1 {
      JoinedOne(es);
      LineConcat(v, "\n");
      LineConcat(" ", v + "\n");
      LineConcat(":", " " + (v + "\n"));
      LineConcat(k, ":" + (" " + (v + "\n")));
    } else {
      var more := Joined(es[1..], ", ", ": ") + "\n";
      EntriesText(es[1..]);
      JoinedMore(es);
      LineConcat(" ", more);
      LineConcat(",", " " + more);
      LineConcat(v, "," + (" " + more));
      LineConcat(" ", v + ("," + (" " + more)));
      LineConcat(":", " " + (v + ("," + (" " + more))));
      LineConcat(k, ":" + (" " + (v + ("," + (" " + more)))));
    }
  }

  lemma LineConcat(a: string, b: string)
    requires AllAscii(a) && '\n' !in a && LineText(b)
    ensures LineText(a + b) && (':' in b || ':' in a ==> ':' in a + b)
  {
    assert (a + b)[..|a + b| - 1] == a + b[..|b| - 1];
  }

  lemma EntryLine(k: string, v: string, rest: string)
    requires Printable(k) && Printable(v) && LineText(rest)
    ensures LineText(v + rest) && LineText(k + (":" + (" " + (v + rest))))
  {
    PrintableOnOneLine(k);
    PrintableOnOneLine(v);
    LineConcat(v, rest);
    LineConcat(" ", v + rest);
    LineConcat(":", " " + (v + rest));
    LineConcat(k, ":" + (" " + (v + rest)));
  }

  /** One entry, followed by `rest`. */
  lemma EntryExactly(l: Record, e: Property, rest: string, log: Record)
    requires Gives(Pending(Key, "", 0, l), e.key + (":" + (" " + (e.value + rest))), log) && LineText(rest)
    requires Printable(e.key) && Printable(e.value) && ':' !in e.key && Held(e.value, false)
    requires rest == "\n" || (rest[0] == ',' && ':' in rest[1..] && !AfterColon(e.value, false))
    requires |log.props| > |l.props| && log.props[|l.props|] == e
    ensures LaterEntry(e)
  {
    EntryLine(e.key, e.value, rest);
    PrintableOnOneLine(e.key);
    PrintableOnOneLine(e.value);
    KeyExact(l, e.key, e.value, rest, log);
    RunKey(l, e.key, e.value + rest);
    ValueExact(WithProp(l, e.key, ""), e.value, rest, log);
  }

  lemma {:induction false} LaterExact(l: Record, es: seq<Property>, log: Record)
    requires es != [] && Simple(es) && Gives(Pending(Key, "", 0, l), Joined(es, ", ", ": ") + "\n", log)
    requires log.props == l.props + es
    ensures LaterEntries(es)
    decreases |es|
  {
    var e := es[0];
    PropsSplit(l, es, log);
    if |es| == 1 {
      JoinedOne(es);
      EntryExactly(l, e, "\n", log);
    } else {
      SimpleTail(es);
      EntriesText(es[1..]);
      JoinedMore(es);
      EntryThenMore(l, e, Joined(es[1..], ", ", ": ") + "\n", log);
      LaterExact(WithProp(l, e.key, e.value), es[1..], log);
      LaterCons(es);
    }
  }

  /** An entry that is followed by others. */
  lemma EntryThenMore(l: Record, e: Property, more: string, log: Record)
    requires Gives(Pending(Key, "", 0, l), e.key + (":" + (" " + (e.value + ("," + (" " + more))))), log)
    requires LineText(more) && ':' in more
    requires Printable(e.key) && Printable(e.value) && ':' !in e.key && Held(e.value, false)
    requires !AfterColon(e.value, false) && |log.props| > |l.props| && log.props[|l.props|] == e
    ensures LaterEntry(e) && Gives(Pending(Key, "", 0, WithProp(l, e.key, e.value)), more, log)
  {
    LineConcat(" ", more);
    LineConcat(",", " " + more);
    assert ("," + (" " + more))[1..] == " " + more;
    EntryExactly(l, e, "," + (" " + more), log);
    RunEntry(l, e.key, e.value, more);
  }

  lemma PropsSplit(l: Record, es: seq<Property>, log: Record)
    requires es != [] && log.props == l.props + es
    ensures |log.props| > |l.props| && log.props[|l.props|] == es[0]
    ensures log.props == WithProp(l, es[0].key, es[0].value).props + es[1..]
  {
    assert l.props + [es[0]] + es[1..] == l.props + es;
  }

  lemma SimpleTail(es: seq<Property>)
    requires es != [] && Simple(es)
    ensures Simple(es[1..])
  {
    assert forall k | 0 <= k < |es| - 1 :: es[1..][k] == es[k + 1];
  }

  lemma LaterCons(es: seq<Property>)
    requires |es| > 1 && LaterEntry(es[0]) && !AfterColon(es[0].value, false) && LaterEntries(es[1..])
    ensures LaterEntries(es)
  {
    assert forall k | 1 <= k < |es| :: es[k] == es[1..][k - 1];
  }

  // The first entry

  /** Reading up to the first colon gives a token of at most the length of the key, and of that length
      only if the key holds no colon and does not start with a blank. */
  lemma {:induction false} CallTypeWidth(p: PendingLine, k: string, rest: string, log: Record)
      returns (x: string, q: PendingLine, more: string)
    requires Gives(p, k + (":" + rest), log) && LineText(k + (":" + rest)) && '\n' !in k
    requires p.state.CallType? || (p.state.TransitionCallType? && p.width == 0 && p.tail == "")
    ensures q == Pending(VerifyCallType, q.tail, 0, WithProp(p.current, KEY_CALL_TYPE, x))
    ensures Gives(q, more, log) && LineText(more)
    ensures |x| <= p.width + |k|
    ensures |x| == p.width + |k| ==>
              AllPlain(CallType, k) && (p.state.TransitionCallType? && k != "" ==> !IsBlank(k[0]))
    decreases |k|
  {
    var text := k + (":" + rest);
    FirstChar(k, ":" + rest);
    assert k == "" ==> text == ":" + rest;
    if text[0] == ':' {
      x := p.Token();
      q := GivesAscii(p, text, log);
      more := text[1..];
      CallTypeRead(p, ':');
    } else {
      var m := CallTypeNext(p, k, ":" + rest, log);
      x, q, more := CallTypeWidth(m, k[1..], rest, log);
      if |x| == p.width + |k| {
        AllPlainCons(CallType, k);
      }
    }
  }

  lemma CallTypeNext(p: PendingLine, k: string, rest: string, log: Record) returns (m: PendingLine)
    requires Gives(p, k + rest, log) && LineText(k + rest) && k != "" && k[0] != ':' && k[0] != '\n'
    requires p.state.CallType? || (p.state.TransitionCallType? && p.width == 0 && p.tail == "")
    ensures Gives(m, k[1..] + rest, log) && LineText(k[1..] + rest) && m.current == p.current && Ascii(k[0])
    ensures if p.state.TransitionCallType? && IsBlank(k[0]) then m == p else m.state.CallType? && m.width == p.width + 1
  {
    m := GivesAscii(p, k + rest, log);
    FirstChar(k, rest);
    CallTypeRead(p, k[0]);
  }

  lemma CallTypeRead(p: PendingLine, c: char)
    requires p.state.CallType? || (p.state.TransitionCallType? && p.width == 0 && p.tail == "")
    ensures Step(p, [c]).Ok?
    ensures var q := Step(p, [c]).value;
            if p.state.TransitionCallType? && IsBlank(c) then q == p
            else if c == ':' then
              q == Pending(VerifyCallType, q.tail, 0, WithProp(p.current, KEY_CALL_TYPE, p.Token()))
            else
              q.state.CallType? && q.width == p.width + 1 && q.current == p.current
  {
  }

  /** The first property is in the end the call type, if a second key follows at once, or it has the
      key `x` and a value of at most the length of the text before the first comma. */
  lemma {:induction false} VerifyWidth(p: PendingLine, x: string, v: string, rest: string, log: Record)
    requires Gives(p, v + rest, log) && LineText(v + rest) && '\n' !in v
    requires rest != "" && rest[0] == ',' && ':' in rest[1..]
    requires p.state.VerifyCallType? && p.current.props == [Property(KEY_CALL_TYPE, x)]
    ensures log.props != []
    ensures || (log.props[0] == Property(KEY_CALL_TYPE, x) && ':' in v)
            || (&& log.props[0].key == x && |log.props[0].value| <= p.width + |v|
                && (|log.props[0].value| == p.width + |v| ==> AllPlain(VerifyCallType, v)))
    decreases |v|
  {
    var text := v + rest;
    var q := GivesAscii(p, text, log);
    FirstChar(v, rest);
    assert v == "" ==> text == rest;
    VerifyRead(p, x, text[0]);
    if text[0] == ',' {
      KeyFate(q, text[1..], log);
    } else if text[0] == ':' {
      EarlierFixed(q, text[1..], log, 1);
      assert log.props[..1][0] == log.props[0] && q.current.props[..1][0] == q.current.props[0];
    } else {
      VerifyWidth(q, x, v[1..], rest, log);
      if log.props[0].key == x && |log.props[0].value| == p.width + |v| && AllPlain(VerifyCallType, v[1..]) {
        AllPlainCons(VerifyCallType, v);
      }
    }
  }

  lemma VerifyRead(p: PendingLine, x: string, c: char)
    requires p.state.VerifyCallType? && p.current.props == [Property(KEY_CALL_TYPE, x)]
    ensures Step(p, [c]).Ok?
    ensures var q := Step(p, [c]).value;
            if c == ',' then
              q.state.Key? && q.current.props == [Property(x, p.Token())] && |p.Token()| == p.width
            else if c == ':' then
              q.state.Value? && |q.current.props| == 2 && q.current.props[0] == Property(KEY_CALL_TYPE, x)
            else
              && q.state.VerifyCallType? && q.current == p.current
              && q.width == if c == ' ' then p.width else p.width + 1
  {
  }

  lemma FirstKeyExact(h: Record, k: string, v: string, rest: string, log: Record)
    requires Gives(Pending(TransitionCallType, "", 0, h), k + (":" + (" " + (v + rest))), log) && h.props == []
    requires LineText(rest) && rest[0] == ',' && ':' in rest[1..] && Printable(k) && Printable(v)
    requires log.props != [] && log.props[0] == Property(k, v)
    ensures FirstKeyText(k)
  {
    EntryLine(k, v, rest);
    PrintableOnOneLine(k);
    var x, q, more := CallTypeWidth(Pending(TransitionCallType, "", 0, h), k, " " + (v + rest), log);
    FirstProp(q, x, more, log);
    if log.props[0].key != x {
      assert k == KEY_CALL_TYPE;
    }
  }

  /** However the line goes on, the first property keeps one of two keys. */
  lemma {:induction false} FirstProp(p: PendingLine, x: string, text: string, log: Record)
    requires Gives(p, text, log) && LineText(text)
    requires p.state.VerifyCallType? && p.current.props == [Property(KEY_CALL_TYPE, x)]
    ensures log.props != [] && (log.props[0].key == x || log.props[0].key == KEY_CALL_TYPE)
    decreases |text|
  {
    if text[0] == '\n' {
      GivesAtNewline(p, text, log);
    } else {
      var q := GivesAscii(p, text, log);
      VerifyRead(p, x, text[0]);
      if text[0] == ',' {
        KeyFate(q, text[1..], log);
      } else if text[0] == ':' {
        EarlierFixed(q, text[1..], log, 1);
        assert log.props[..1][0] == log.props[0] && q.current.props[..1][0] == q.current.props[0];
      } else {
        FirstProp(q, x, text[1..], log);
      }
    }
  }

  lemma FirstValueExact(h: Record, k: string, v: string, rest: string, log: Record)
    requires Gives(Pending(VerifyCallType, "", 0, WithProp(h, KEY_CALL_TYPE, k)), v + rest, log) && h.props == []
    requires LineText(rest) && rest[0] == ',' && ':' in rest[1..] && Printable(v) && FirstKeyText(k)
    requires log.props != [] && log.props[0] == Property(k, v)
    ensures AllPlain(VerifyCallType, v)
  {
    PrintableOnOneLine(v);
    LineConcat(v, rest);
    assert ':' !in k;
    VerifyWidth(Pending(VerifyCallType, "", 0, WithProp(h, KEY_CALL_TYPE, k)), k, v, rest, log);
  }

  lemma FirstExact(h: Record, e: Property, more: string, log: Record)
    requires Gives(Pending(TransitionCallType, "", 0, h), e.key + (":" + (" " + (e.value + ("," + (" " + more))))), log)
    requires h.props == [] && LineText(more) && ':' in more && Printable(e.key) && Printable(e.value)
    requires log.props != [] && log.props[0] == e
    ensures FirstKeyText(e.key) && AllPlain(VerifyCallType, e.value)
    ensures Gives(Pending(Key, "", 0, WithProp(h, e.key, e.value)), more, log)
  {
    var rest := "," + (" " + more);
    LineConcat(" ", more);
    LineConcat(",", " " + more);
    assert rest[1..] == " " + more;
    FirstKeyExact(h, e.key, e.value, rest, log);
    RunCallType(h, e.key, e.value + rest);
    FirstValueExact(h, e.key, e.value, rest, log);
    RunFirstValue(h, e.key, e.value, more);
  }

  // The whole line

  /** What is assumed of a log: a level, and two or more entries of printable text whose colons are
      not those of a double key. */
  predicate InScope(l: Record) {
    var es := Entries(l);
    && l.level != "" && |es| >= 2
    && Printable(es[0].key) && Printable(es[0].value) && Simple(es[1..])
  }

  /** The fields that come back. */
  predicate ComesBack(l: Record) {
    var es := Entries(l);
    && HeaderRaw(l)
    && |es| >= 2
    && FirstKeyText(es[0].key) && AllPlain(VerifyCallType, es[0].value)
    && LaterEntries(es[1..])
  }

  lemma ScopeText(es: seq<Property>)
    requires |es| >= 2 && Simple(es[1..])
    ensures LineText(Joined(es[1..], ", ", ": ") + "\n") && ':' in Joined(es[1..], ", ", ": ") + "\n"
  {
    EntriesText(es[1..]);
  }

  lemma FirstProps(h: Record, es: seq<Property>)
    requires es != [] && h.props == []
    ensures WithProp(h, es[0].key, es[0].value).props + es[1..] == es
  {
  }

  lemma BodyExact(l: Record, log: Record)
    requires InScope(l) && log.props == Entries(l)
    requires Gives(Pending(TransitionCallType, "", 0, HeaderOnly(l)), Joined(Entries(l), ", ", ": ") + "\n", log)
    ensures var es := Entries(l);
            FirstKeyText(es[0].key) && AllPlain(VerifyCallType, es[0].value) && LaterEntries(es[1..])
  {
    var es, h := Entries(l), HeaderOnly(l);
    ScopeText(es);
    JoinedMore(es);
    FirstExact(h, es[0], Joined(es[1..], ", ", ": ") + "\n", log);
    FirstProps(h, es);
    LaterExact(WithProp(h, es[0].key, es[0].value), es[1..], log);
  }

  lemma OnOneLine(l: Record)
    requires |ParsedLogs(TextOf(l) + "\n")| == 1
    ensures HeaderOnOneLine(l)
  {
    NewlinesConcat(TextOf(l), "\n");
    NoNewlines(TextOf(l));
    assert '\n' !in TimestampText(l) && '\n' !in SourceText(l);
  }

  lemma BackMeansComesBack(l: Record)
    requires InScope(l) && ParsedLogs(TextOf(l) + "\n") == [Reparsed(l)]
    ensures ComesBack(l)
  {
    OnOneLine(l);
    ScanSafe(FRESH, TextOf(l) + "\n");
    assert Gives(FRESH, TextOf(l) + "\n", Reparsed(l));
    HeaderExact(l, Reparsed(l));
    BodyExact(l, Reparsed(l));
  }

  /** Also when header fields hold bytes that are not ASCII. */
  lemma ComesBackRun(l: Record)
    requires ComesBack(l) && l.level != "" && Printable(Entries(l)[0].key) && Printable(Entries(l)[0].value)
    ensures Scan(FRESH, TextOf(l) + "\n") == Ok(Scanned(FRESH, [Reparsed(l)]))
  {
    var es, h := Entries(l), HeaderOnly(l);
    var e, more := es[0], Joined(es[1..], ", ", ": ") + "\n";
    RawHeaderRun(l);
    JoinedMore(es);
    RunCallType(h, e.key, e.value + ("," + (" " + more)));
    RunFirstValue(h, e.key, e.value, more);
    RunEntries(WithProp(h, e.key, e.value), es[1..]);
    ReparsedProps(l);
  }

  /** Parsing undoes printing exactly when every field is one that the parser reads as it was
      printed. */
  lemma ReparsesExactly(l: Record)
    requires InScope(l)
    ensures ParsedLogs(TextOf(l) + "\n") == [Reparsed(l)] <==> ComesBack(l)
  {
    if ComesBack(l) {
      ComesBackRun(l);
    }
    if ParsedLogs(TextOf(l) + "\n") == [Reparsed(l)] {
      BackMeansComesBack(l);
    }
  }
}
