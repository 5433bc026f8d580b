/** When the JSON output can be read back: `JsonSafe` is not only enough, as Json.JsonIsFaithful
    says, but needed. */
module JsonConverse {
  import opened Records
  import opened Text
  import opened Printer
  import opened Json

  // Text that is written raw

  /** What follows the closing quote of a value. */
  predicate AfterValue(tail: string) {
    tail == "}" || ", \"" <= tail
  }

  /** How reading raw text and its closing quote can end: as it should; early, or with an escape
      that makes it shorter; or past the quote, when the text ends in a backslash. */
  predicate RawOutcome(x: string, tail: string, r: Read<string>) {
    || r.Fail?
    || (JsonPlain(x) && r == Got(x, tail))
    || |r.value| < |x|
    || (x != "" && x[|x| - 1] == '\\' && r.value != "" && r.value[|r.value| - 1] == ' ')
  }

  lemma PastQuote(tail: string)
    requires AfterValue(tail)
    ensures RawOutcome("\\", tail, ReadChars("\\" + ("\"" + tail)))
  {
    var s := "\\" + ("\"" + tail);
    assert s[2..] == tail && s[1] == '\"';
    if tail == "}" {
      assert tail[1..] == "";
      assert ReadChars(tail).Fail?;
    } else {
      assert tail[2..][0] == '\"' && tail[2..][1..] == tail[3..];
      assert tail[1..][0] == ' ' && tail[1..][1..] == tail[2..];
      assert ReadChars(tail[1..]) == Got([' '] + "", tail[3..]);
      assert ReadChars(tail) == Got([','] + ([' '] + ""), tail[3..]);
      assert ReadChars(s).value[3 - 1] == ' ';
    }
  }

  lemma RawCons(c: char, x: string, tail: string, r: Read<string>)
    requires RawOutcome(x, tail, r) && r.Got? && c != '\"' && c != '\\' && !IsControl(c)
    ensures RawOutcome([c] + x, tail, Got([c] + r.value, r.rest))
  {
  }

  lemma {:induction false} RawRead(x: string, tail: string)
    requires AfterValue(tail)
    ensures RawOutcome(x, tail, ReadChars(x + ("\"" + tail)))
    decreases |x|
  {
    var s := x + ("\"" + tail);
    if x == "" {
      assert s == "\"" + tail && s[1..] == tail;
    } else if x[0] == '\"' || IsControl(x[0]) {
    } else if x[0] == '\\' {
      if |x| == 1 {
        assert x == "\\";
        PastQuote(tail);
      } else {
        assert s[2..] == x[2..] + ("\"" + tail) && s[1] == x[1];
        RawRead(x[2..], tail);
      }
    } else {
      assert s[1..] == x[1..] + ("\"" + tail);
      RawRead(x[1..], tail);
      if ReadChars(s[1..]).Got? {
        RawCons(x[0], x[1..], tail, ReadChars(s[1..]));
        assert [x[0]] + x[1..] == x;
      }
    }
  }

  /** Raw text comes back only if it needs no escaping. */
  lemma RawReadsBack(x: string, tail: string)
    requires AfterValue(tail) && ReadChars(x + ("\"" + tail)).Got? && ReadChars(x + ("\"" + tail)).value == x
    ensures JsonPlain(x) && ReadChars(x + ("\"" + tail)).rest == tail
  {
    RawRead(x, tail);
  }

  // Text that is escaped

  lemma {:induction false} PlainThenFail(t: string, more: string)
    requires JsonPlain(t) && ReadChars(more).Fail?
    ensures ReadChars(t + more).Fail?
  {
    if t == "" {
      assert t + more == more;
    } else {
      assert (t + more)[1..] == t[1..] + more;
      assert t[0] in t;
      PlainThenFail(t[1..], more);
    }
  }

  predicate OnlyEscapedControls(s: string) {
    forall c | c in s :: IsControl(c) ==> IsEscaped(c)
  }

  /** Reading escaped text either fails or stops at its closing quote, and it is no shorter than the
      text; it is longer when a byte had to be replaced. */
  predicate EscapedOutcome(s: string, tail: string, r: Read<string>) {
    r.Got? ==> r.rest == tail && |r.value| >= (if Utf8(s) then |s| else |s| + 1) && OnlyEscapedControls(s)
  }

  lemma {:induction false} EscapedRead(s: string, tail: string)
    ensures EscapedOutcome(s, tail, ReadChars(Escape(s) + ("\"" + tail)))
    decreases |s|
  {
    if s == "" {
      assert "" + ("\"" + tail) == "\"" + tail && ("\"" + tail)[1..] == tail;
    } else {
      var w := RuneWidth(s);
      var r, e := s[..w], EscapeRune(s[..w]);
      var more := Escape(s[w..]) + ("\"" + tail);
      EscapedRead(s[w..], tail);
      Assoc(e, Escape(s[w..]), "\"" + tail);
      assert s == r + s[w..];
      if IsEscaped(s[0]) {
        assert r == [s[0]];
        EscapedLetter(s[0], more);
      } else {
        RuneRead(r, e, more);
      }
    }
  }

  lemma EscapedLetter(c: char, more: string)
    requires IsEscaped(c)
    ensures var o := ReadChars(['\\', EscapeLetter(c)] + more);
            o.Got? ==> ReadChars(more).Got? && o == Got([c] + ReadChars(more).value, ReadChars(more).rest)
  {
    if ReadChars(more).Got? {
      ReadLetter(c, more);
    } else {
      assert (['\\', EscapeLetter(c)] + more)[2..] == more;
    }
  }

  lemma RuneRead(r: string, e: string, more: string)
    requires r != "" && !IsEscaped(r[0]) && e == EscapeRune(r)
    requires |r| > 1 ==> forall c | c in r :: !Ascii(c)
    ensures var o := ReadChars(e + more);
            o.Got? ==> && ReadChars(more).Got? && o == Got(e + ReadChars(more).value, ReadChars(more).rest)
                       && OnlyEscapedControls(r)
  {
    if |r| == 1 && IsControl(r[0]) {
      assert (e + more)[0] == r[0];
    } else {
      assert JsonPlain(e);
      if ReadChars(more).Got? {
        ReadPlain(e, more);
      } else {
        PlainThenFail(e, more);
      }
    }
  }

  lemma EscapedReadsBack(s: string, tail: string)
    requires ReadChars(Escape(s) + ("\"" + tail)).Got? && ReadChars(Escape(s) + ("\"" + tail)).value == s
    ensures JsonText(s) && ReadChars(Escape(s) + ("\"" + tail)).rest == tail
  {
    EscapedRead(s, tail);
  }

  // Members

  predicate RawMember(m: Member) {
    JsonPlain(m.keyText) && m.keyText == m.meaning.key && m.valueText == m.meaning.value
  }

  predicate EscapedMember(m: Member) {
    m.keyText == Escape(m.meaning.key) && m.valueText == Escape(m.meaning.value)
  }

  predicate Written(m: Member) {
    RawMember(m) || EscapedMember(m)
  }

  /** The key of a written member, if it comes back. */
  lemma KeyReadsBack(m: Member, colon: string)
    requires Written(m)
    requires var r := ReadChars(m.keyText + ("\"" + colon)); r.Got? && r.value == m.meaning.key
    ensures Decodes(m.keyText, m.meaning.key) && ReadChars(m.keyText + ("\"" + colon)).rest == colon
  {
    if RawMember(m) {
      PlainDecodes(m.keyText);
    } else {
      EscapedReadsBack(m.meaning.key, colon);
      EscapeDecodes(m.meaning.key);
    }
  }

  lemma ValueReadsBack(m: Member, tail: string)
    requires Written(m) && AfterValue(tail)
    requires var r := ReadChars(m.valueText + ("\"" + tail)); r.Got? && r.value == m.meaning.value
    ensures Decodes(m.valueText, m.meaning.value) && ReadChars(m.valueText + ("\"" + tail)).rest == tail
  {
    if RawMember(m) {
      RawReadsBack(m.valueText, tail);
      PlainDecodes(m.valueText);
    } else {
      EscapedReadsBack(m.meaning.value, tail);
      EscapeDecodes(m.meaning.value);
    }
  }

  lemma MemberReadsBack(m: Member, tail: string)
    requires Written(m) && AfterValue(tail)
    requires ReadMember(MemberText(m) + tail).Got? && ReadMember(MemberText(m) + tail).value == m.meaning
    ensures Faithful(m) && ReadMember(MemberText(m) + tail).rest == tail
  {
    var value := m.valueText + ("\"" + tail);
    var colon := ": " + ("\"" + value);
    var key := m.keyText + ("\"" + colon);
    MemberSplit(m.keyText, m.valueText, tail);
    assert MemberText(m) + tail == "\"" + key;
    assert ("\"" + key)[1..] == key && ("\"" + value)[1..] == value;
    KeyReadsBack(m, colon);
    ReadColon("\"" + value);
    ValueReadsBack(m, tail);
  }

  lemma LastReadsBack(m: Member)
    requires Written(m) && ReadMembers(MemberText(m) + "}") == Got([m.meaning], "")
    ensures Faithful(m)
  {
    MemberReadsBack(m, "}");
  }

  lemma FirstOfMembers(text: string)
    requires ReadMembers(text).Got?
    ensures ReadMember(text).Got? && ReadMembers(text).value != []
    ensures ReadMember(text).value == ReadMembers(text).value[0]
  {
  }

  lemma RestOfMembers(text: string, m: Property, more: string)
    requires ReadMember(text) == Got(m, ", " + more) && more != "" && more[0] == '\"' && ReadMembers(text).Got?
    ensures ReadMembers(more).Got? && ReadMembers(text) == Got([m] + ReadMembers(more).value, ReadMembers(more).rest)
  {
    ReadComma(more);
  }

  lemma SameRest(m: Property, a: seq<Property>, b: seq<Property>)
    requires [m] + a == [m] + b
    ensures a == b
  {
    assert ([m] + a)[1..] == a && ([m] + b)[1..] == b;
  }

  /** The first of several members. */
  lemma FirstReadsBack(m: Member, more: string, meanings: seq<Property>)
    requires Written(m) && more != "" && more[0] == '\"'
    requires ReadMembers(MemberText(m) + (", " + more)) == Got([m.meaning] + meanings, "")
    ensures Faithful(m) && ReadMembers(more) == Got(meanings, "")
  {
    var text := MemberText(m) + (", " + more);
    FirstOfMembers(text);
    MemberReadsBack(m, ", " + more);
    RestOfMembers(text, m.meaning, more);
    SameRest(m.meaning, ReadMembers(more).value, meanings);
  }

  predicate AllWritten(ms: seq<Member>) {
    forall k | 0 <= k < |ms| :: Written(ms[k])
  }

  lemma FirstOfSeveral(ms: seq<Member>)
    requires |ms| > 1 && Written(ms[0]) && ReadMembers(MembersText(ms) + "}") == Got(Meanings(ms), "")
    ensures Faithful(ms[0]) && ReadMembers(MembersText(ms[1..]) + "}") == Got(Meanings(ms[1..]), "")
  {
    var more := MembersText(ms[1..]) + "}";
    FirstAndMore(MemberText(ms[0]), MembersText(ms[1..]));
    MembersStart(ms[1..]);
    MeaningsSplit(ms);
    FirstReadsBack(ms[0], more, Meanings(ms[1..]));
  }

  lemma {:induction false} OnlyMember(ms: seq<Member>)
    requires |ms| == 1 && Written(ms[0]) && ReadMembers(MembersText(ms) + "}") == Got(Meanings(ms), "")
    ensures Faithful(ms[0])
  {
    assert Meanings(ms) == [ms[0].meaning];
    LastReadsBack(ms[0]);
  }

  ghost predicate ReadBack(ms: seq<Member>) {
    ms != [] && AllWritten(ms) && ReadMembers(MembersText(ms) + "}") == Got(Meanings(ms), "")
  }

  lemma RestReadBack(ms: seq<Member>)
    requires ReadBack(ms) && |ms| > 1
    ensures ReadBack(ms[1..])
  {
    FirstOfSeveral(ms);
  }

  lemma FirstIsFaithful(ms: seq<Member>)
    requires ReadBack(ms)
    ensures Faithful(ms[0])
  {
    if |ms| == 1 {
      OnlyMember(ms);
    } else {
      FirstOfSeveral(ms);
    }
  }

  lemma {:induction false} MembersReadBack(ms: seq<Member>, k: nat)
    requires ReadBack(ms) && k < |ms|
    ensures Faithful(ms[k])
    decreases |ms|
  {
    if k == 0 {
      FirstIsFaithful(ms);
    } else {
      RestReadBack(ms);
      MembersReadBack(ms[1..], k - 1);
    }
  }

  /** Faithful members are safe text. */
  lemma FaithfulRaw(m: Member)
    requires RawMember(m) && Faithful(m)
    ensures JsonPlain(m.valueText)
  {
    var x := m.valueText;
    assert ReadChars(x + ("\"" + "}")) == Got(x, "}");
    RawReadsBack(x, "}");
  }

  lemma EscapedText(s: string)
    requires Decodes(Escape(s), s)
    ensures JsonText(s)
  {
    assert ReadChars(Escape(s) + ("\"" + "}")) == Got(s, "}");
    EscapedReadsBack(s, "}");
  }

  lemma FaithfulEscaped(m: Member)
    requires EscapedMember(m) && Faithful(m)
    ensures JsonText(m.meaning.key) && JsonText(m.meaning.value)
  {
    EscapedText(m.meaning.key);
    EscapedText(m.meaning.value);
  }

  lemma KeysArePlain()
    ensures JsonPlain("timestamp") && JsonPlain("level") && JsonPlain("thread") && JsonPlain("class")
  {
  }

  lemma HeaderWritten(l: Record, k: nat)
    requires k < 4
    ensures RawMember(HeaderMembers(l)[k]) && AllMembers(l)[k] == HeaderMembers(l)[k]
  {
    KeysArePlain();
    var key := HeaderMembers(l)[k].keyText;
    assert key == if k == 0 then "timestamp" else if k == 1 then "level" else if k == 2 then "thread" else "class";
  }

  lemma LogIsWritten(l: Record)
    ensures AllWritten(AllMembers(l))
  {
    forall k | 0 <= k < |AllMembers(l)| ensures Written(AllMembers(l)[k]) {
      if k < 4 {
        HeaderWritten(l, k);
      } else {
        EntryWritten(l, k - 4);
      }
    }
  }

  ghost predicate ReadsBack(l: Record) {
    ReadMembers(MembersText(AllMembers(l)) + "}") == Got(Meanings(AllMembers(l)), "")
  }

  lemma HeaderIsSafe(l: Record, k: nat)
    requires ReadsBack(l) && k < 4
    ensures JsonPlain(HeaderMembers(l)[k].valueText)
  {
    LogIsWritten(l);
    MembersReadBack(AllMembers(l), k);
    HeaderWritten(l, k);
    FaithfulRaw(HeaderMembers(l)[k]);
  }

  lemma EntryIsSafe(l: Record, k: nat)
    requires ReadsBack(l) && k < |Entries(l)|
    ensures JsonText(Entries(l)[k].key) && JsonText(Entries(l)[k].value)
  {
    LogIsWritten(l);
    MembersReadBack(AllMembers(l), 4 + k);
    EntryWritten(l, k);
    FaithfulEscaped(EntryMembers(Entries(l))[k]);
  }

  lemma EntryWritten(l: Record, k: nat)
    requires k < |Entries(l)|
    ensures var m := EntryMembers(Entries(l))[k];
            EscapedMember(m) && m.meaning == Entries(l)[k] && AllMembers(l)[4 + k] == m
  {
  }

  lemma ReadBackIsSafe(l: Record)
    requires ReadsBack(l)
    ensures JsonSafe(l)
  {
    HeaderIsSafe(l, 0);
    HeaderIsSafe(l, 1);
    HeaderIsSafe(l, 2);
    HeaderIsSafe(l, 3);
    PlainParts(l.date, l.time);
    forall k | 0 <= k < |Entries(l)| ensures JsonText(Entries(l)[k].key) && JsonText(Entries(l)[k].value) {
      EntryIsSafe(l, k);
    }
  }

  lemma PlainParts(date: string, time: string)
    requires JsonPlain(date + " " + time)
    ensures JsonPlain(date) && JsonPlain(time)
  {
    assert forall c | c in date || c in time :: c in date + " " + time;
  }

  /** The JSON output is an object that reads back as the log exactly when header fields need no
      escaping and the other texts are well-formed with no control characters but the escaped ones. */
  lemma JsonIsFaithfulExactly(l: Record)
    ensures ReadObject(JsonOf(l)) == Got(JsonMeaning(l), "") <==> JsonSafe(l)
  {
    if JsonSafe(l) {
      JsonIsFaithful(l);
    }
    if ReadObject(JsonOf(l)) == Got(JsonMeaning(l), "") {
      var ms := AllMembers(l);
      JsonIsMembers(l);
      MembersStart(ms);
      ReadBraced(MembersText(ms) + "}");
      AllMeanings(l);
      ReadBackIsSafe(l);
    }
  }
}
