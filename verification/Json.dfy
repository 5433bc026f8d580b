/** The JSON writer against a reader of flat JSON objects (sections 4 and 7 of RFC 8259). */
module Json {
  import opened Records
  import opened Text
  import opened Printer

  // A strict reader: objects whose values are strings

  datatype Read<+T> = Fail | Got(value: T, rest: string) {
    predicate IsFailure() { Fail? }
    function PropagateFailure<U>(): Read<U> requires Fail? { Fail }
    function Extract(): (T, string) requires Got? { (value, rest) }
  }

  predicate IsControl(c: char) {
    c as int < 0x20
  }

  /** The two-character escapes of section 7. */
  predicate IsJsonEscape(c: char) {
    c in "\"\\/bfnrt"
  }

  /** The characters of a string after its opening quote. */
  function ReadChars(s: string): Read<string>
    decreases |s|
  {
    if s == "" then Fail
    else if s[0] == '\"' then Got("", s[1..])
    else if s[0] == '\\' then
      if |s| == 1 || !IsJsonEscape(s[1]) then Fail
      else var (more, rest) :- ReadChars(s[2..]); Got([Unletter(s[1])] + more, rest)
    else if IsControl(s[0]) then Fail
    else var (more, rest) :- ReadChars(s[1..]); Got([s[0]] + more, rest)
  }

  function ReadString(s: string): (r: Read<string>)
    ensures r.Got? ==> |r.rest| < |s|
  {
    if s != "" && s[0] == '\"' then
      ReadCharsShorter(s[1..]);
      ReadChars(s[1..])
    else Fail
  }

  lemma {:induction false} ReadCharsShorter(s: string)
    ensures ReadChars(s).Got? ==> |ReadChars(s).rest| < |s|
    decreases |s|
  {
    if s == "" || s[0] == '\"' {
    } else if s[0] == '\\' {
      if |s| > 1 && IsJsonEscape(s[1]) {
        ReadCharsShorter(s[2..]);
      }
    } else {
      ReadCharsShorter(s[1..]);
    }
  }

  predicate IsJsonSpace(c: char) {
    c == ' ' || c == '\t' || c == '\n' || c == '\r'
  }

  function SkipSpace(s: string): (rest: string)
    ensures |rest| <= |s|
  {
    if s != "" && IsJsonSpace(s[0]) then SkipSpace(s[1..]) else s
  }

  /** A structural character between optional blanks. */
  function ReadChar(s: string, c: char): (r: Read<()>)
    ensures r.Got? ==> |r.rest| < |s|
  {
    var t := SkipSpace(s);
    if t != "" && t[0] == c then Got((), SkipSpace(t[1..])) else Fail
  }

  function ReadMember(s: string): (r: Read<Property>)
    ensures r.Got? ==> |r.rest| < |s|
  {
    var (key, s1) :- ReadString(s);
    var (_, s2) :- ReadChar(s1, ':');
    var (value, s3) :- ReadString(s2);
    Got(Property(key, value), s3)
  }

  /** Members up to and with the closing brace. */
  function ReadMembers(s: string): Read<seq<Property>>
    decreases |s|
  {
    var (member, s1) :- ReadMember(s);
    if ReadChar(s1, '}').Got? then
      Got([member], ReadChar(s1, '}').rest)
    else
      var (_, s2) :- ReadChar(s1, ',');
      var (more, s3) :- ReadMembers(s2);
      Got([member] + more, s3)
  }

  /** A text that is one flat object and nothing else. */
  function ReadObject(s: string): Read<seq<Property>> {
    var (_, s1) :- ReadChar(s, '{');
    if ReadChar(s1, '}').Got? then
      Got([], ReadChar(s1, '}').rest)
    else
      ReadMembers(s1)
  }

  // Strings

  /** `text` between quotes is a JSON string that stands for `meaning`. */
  ghost predicate Decodes(text: string, meaning: string) {
    forall rest :: ReadChars(text + ("\"" + rest)) == Got(meaning, rest)
  }

  /** Text that is written as it is: what the header fields must be. */
  predicate JsonPlain(s: string) {
    forall c | c in s :: c != '\"' && c != '\\' && !IsControl(c)
  }

  lemma {:induction false} ReadPlain(t: string, more: string)
    requires JsonPlain(t) && ReadChars(more).Got?
    ensures ReadChars(t + more) == Got(t + ReadChars(more).value, ReadChars(more).rest)
  {
    if t == "" {
      assert t + more == more && t + ReadChars(more).value == ReadChars(more).value;
    } else {
      assert (t + more)[1..] == t[1..] + more;
      assert t[0] in t;
      ReadPlain(t[1..], more);
      assert [t[0]] + (t[1..] + ReadChars(more).value) == t + ReadChars(more).value;
    }
  }

  lemma PlainDecodes(t: string)
    requires JsonPlain(t)
    ensures Decodes(t, t)
  {
    forall rest
      ensures ReadChars(t + ("\"" + rest)) == Got(t, rest)
    {
      assert ("\"" + rest)[1..] == rest;
      ReadPlain(t, "\"" + rest);
      assert t + "" == t;
    }
  }

  /** Well-formed text whose only control characters are the five that are escaped. */
  predicate JsonText(s: string) {
    Utf8(s) && forall c | c in s :: IsControl(c) ==> IsEscaped(c)
  }

  lemma ReadLetter(c: char, more: string)
    requires IsEscaped(c) && ReadChars(more).Got?
    ensures ReadChars(['\\', EscapeLetter(c)] + more) == Got([c] + ReadChars(more).value, ReadChars(more).rest)
  {
    assert (['\\', EscapeLetter(c)] + more)[2..] == more;
    assert Unletter(EscapeLetter(c)) == c;
  }

  /** One rune of escaped text, when what follows it is read as it should be. */
  lemma ReadEscapedRune(s: string, more: string, rest: string)
    requires s != "" && JsonText(s) && ReadChars(more) == Got(s[RuneWidth(s)..], rest)
    ensures ReadChars(EscapeRune(s[..RuneWidth(s)]) + more) == Got(s, rest)
  {
    var r := s[..RuneWidth(s)];
    assert s == r + s[|r|..] && s[0] in s;
    if IsEscaped(s[0]) {
      assert r == [s[0]];
      ReadLetter(s[0], more);
    } else {
      assert forall c | c in r :: c in s;
      ReadPlain(r, more);
    }
  }

  lemma EscapeSplit(s: string, end: string)
    requires s != ""
    ensures Escape(s) + end == EscapeRune(s[..RuneWidth(s)]) + (Escape(s[RuneWidth(s)..]) + end)
  {
    Assoc(EscapeRune(s[..RuneWidth(s)]), Escape(s[RuneWidth(s)..]), end);
  }

  lemma JsonTextTail(s: string, w: nat)
    requires s != "" && JsonText(s) && w == RuneWidth(s)
    ensures JsonText(s[w..])
  {
    assert forall c | c in s[w..] :: c in s;
  }

  lemma {:induction false} ReadEscaped(s: string, rest: string)
    requires JsonText(s)
    ensures ReadChars(Escape(s) + ("\"" + rest)) == Got(s, rest)
    decreases |s|
  {
    var end := "\"" + rest;
    if s == "" {
      assert Escape(s) + end == end && end[1..] == rest;
    } else {
      var w := RuneWidth(s);
      JsonTextTail(s, w);
      ReadEscaped(s[w..], rest);
      ReadEscapedRune(s, Escape(s[w..]) + end, rest);
      EscapeSplit(s, end);
    }
  }

  lemma EscapeDecodes(s: string)
    requires JsonText(s)
    ensures Decodes(Escape(s), s)
  {
    forall rest
      ensures ReadChars(Escape(s) + ("\"" + rest)) == Got(s, rest)
    {
      ReadEscaped(s, rest);
    }
  }

  // Members

  /** A member as it is written, with what its key and its value stand for. */
  datatype Member = Member(keyText: string, valueText: string, meaning: Property)

  ghost predicate Faithful(m: Member) {
    Decodes(m.keyText, m.meaning.key) && Decodes(m.valueText, m.meaning.value)
  }

  function MemberText(m: Member): string {
    "\"" + (m.keyText + ("\"" + (": " + ("\"" + (m.valueText + "\"")))))
  }

  function MembersText(ms: seq<Member>): string {
    if ms == [] then "" else if |ms| == 1 then MemberText(ms[0]) else MemberText(ms[0]) + (", " + MembersText(ms[1..]))
  }

  function Meanings(ms: seq<Member>): seq<Property> {
    seq(|ms|, k requires 0 <= k < |ms| => ms[k].meaning)
  }

  lemma ReadOneMember(m: Member, rest: string)
    requires Faithful(m)
    ensures ReadMember(MemberText(m) + rest) == Got(m.meaning, rest)
  {
    var value := m.valueText + ("\"" + rest);
    var colon := ": " + ("\"" + value);
    var key := m.keyText + ("\"" + colon);
    MemberSplit(m.keyText, m.valueText, rest);
    assert MemberText(m) + rest == "\"" + key;
    assert ("\"" + key)[1..] == key;
    assert ReadChars(key) == Got(m.meaning.key, colon);
    ReadColon("\"" + value);
    assert ("\"" + value)[1..] == value;
    assert ReadChars(value) == Got(m.meaning.value, rest);
  }

  lemma MemberSplit(k: string, v: string, rest: string)
    ensures "\"" + (k + ("\"" + (": " + ("\"" + (v + "\""))))) + rest
         == "\"" + (k + ("\"" + (": " + ("\"" + (v + ("\"" + rest))))))
  {
  }

  lemma ReadColon(rest: string)
    requires rest != "" && rest[0] == '\"'
    ensures ReadChar(": " + rest, ':') == Got((), rest)
  {
    assert (": " + rest)[1..] == " " + rest;
    assert (" " + rest)[1..] == rest;
    assert SkipSpace(" " + rest) == SkipSpace(rest) == rest;
  }

  lemma ReadComma(rest: string)
    requires rest != "" && rest[0] == '\"'
    ensures ReadChar(", " + rest, '}').Fail? && ReadChar(", " + rest, ',') == Got((), rest)
  {
    assert (", " + rest)[1..] == " " + rest;
    assert (" " + rest)[1..] == rest;
    assert SkipSpace(" " + rest) == SkipSpace(rest) == rest;
  }

  lemma FirstAndMore(m: string, more: string)
    ensures m + (", " + more) + "}" == m + (", " + (more + "}"))
  {
  }

  lemma MoreMembers(text: string, m: Property, more: string)
    requires ReadMember(text) == Got(m, ", " + more) && more != "" && more[0] == '\"'
    requires ReadMembers(more).Got?
    ensures ReadMembers(text) == Got([m] + ReadMembers(more).value, ReadMembers(more).rest)
  {
    ReadComma(more);
  }

  lemma {:induction false} ReadAllMembers(ms: seq<Member>)
    requires ms != [] && forall k | 0 <= k < |ms| :: Faithful(ms[k])
    ensures ReadMembers(MembersText(ms) + "}") == Got(Meanings(ms), "")
    decreases |ms|
  {
    if |ms| == 1 {
      ReadOneMember(ms[0], "}");
      assert "}"[1..] == "";
      assert Meanings(ms) == [ms[0].meaning];
    } else {
      var more := MembersText(ms[1..]) + "}";
      var text := MemberText(ms[0]) + (", " + more);
      FirstAndMore(MemberText(ms[0]), MembersText(ms[1..]));
      ReadOneMember(ms[0], ", " + more);
      MembersStart(ms[1..]);
      ReadAllMembers(ms[1..]);
      MoreMembers(text, ms[0].meaning, more);
      MeaningsSplit(ms);
    }
  }

  lemma MeaningsSplit(ms: seq<Member>)
    requires ms != []
    ensures Meanings(ms) == [ms[0].meaning] + Meanings(ms[1..])
  {
  }

  lemma MembersStart(ms: seq<Member>)
    requires ms != []
    ensures MembersText(ms) != "" && MembersText(ms)[0] == '\"'
  {
  }

  // What the writer writes

  function HeaderMembers(l: Record): seq<Member> {
    [Member("timestamp", l.date + " " + l.time, Property("timestamp", l.date + " " + l.time)),
     Member("level", l.level, Property("level", l.level)),
     Member("thread", l.thread, Property("thread", l.thread)),
     Member("class", l.cls, Property("class", l.cls))]
  }

  function EntryMembers(es: seq<Property>): seq<Member> {
    seq(|es|, k requires 0 <= k < |es| => Member(Escape(es[k].key), Escape(es[k].value), es[k]))
  }

  lemma {:induction false} MembersConcat(a: seq<Member>, b: seq<Member>)
    requires a != [] && b != []
    ensures MembersText(a + b) == MembersText(a) + (", " + MembersText(b))
  {
    assert (a + b)[1..] == a[1..] + b;
    if |a| == 1 {
      assert a[1..] + b == b;
    } else {
      MembersConcat(a[1..], b);
      assert MemberText(a[0]) + (", " + MembersText(a[1..])) + (", " + MembersText(b))
          == MemberText(a[0]) + (", " + (MembersText(a[1..]) + (", " + MembersText(b))));
    }
  }

  lemma EntryRegroup(k: string, v: string)
    ensures "\"" + (k + "\": \"" + v) + "\"" == "\"" + (k + ("\"" + (": " + ("\"" + (v + "\"")))))
  {
  }

  lemma EntriesRegroup(e: string, more: string)
    ensures "\"" + (e + "\", \"" + more) + "\"" == "\"" + e + "\"" + (", " + ("\"" + more + "\""))
  {
  }

  /** The entries as members: the separators of `serialize` close one string and open the next. */
  lemma {:induction false} EntriesAreMembers(es: seq<Property>)
    requires es != []
    ensures "\"" + Joined(es, "\", \"", "\": \"") + "\"" == MembersText(EntryMembers(es))
  {
    EntryRegroup(Escape(es[0].key), Escape(es[0].value));
    if |es| > 1 {
      EntriesAreMembers(es[1..]);
      assert EntryMembers(es)[1..] == EntryMembers(es[1..]);
      EntriesRegroup(Entry(es[0], "\": \""), Joined(es[1..], "\", \"", "\": \""));
    }
  }

  /** Closing the string and writing one more member. */
  lemma AddMember(x: string, sep: string, m: Member)
    requires sep == "\", \"" + m.keyText + "\": \""
    ensures x + sep + m.valueText + "\"" == x + "\"" + (", " + MemberText(m))
  {
    var k, v := m.keyText, m.valueText;
    assert sep == "\"" + (", " + ("\"" + (k + ("\"" + (": " + "\"")))));
    Glue(x, "\"", ", " + ("\"" + (k + ("\"" + (": " + "\"")))), v, "\"");
    MemberGlue(k, v);
  }

  lemma Glue(x: string, q: string, sep: string, v: string, end: string)
    ensures x + (q + sep) + v + end == x + q + (sep + v + end)
  {
  }

  lemma MemberGlue(k: string, v: string)
    ensures ", " + ("\"" + (k + ("\"" + (": " + "\"")))) + v + "\""
         == ", " + ("\"" + (k + ("\"" + (": " + ("\"" + (v + "\""))))))
  {
  }

  lemma HeaderIsMembers(l: Record)
    ensures HeaderJson(l) + "\"" == "{" + MembersText(HeaderMembers(l))
  {
    var ms := HeaderMembers(l);
    var j1 := "{\"timestamp\": \"" + l.date + " " + l.time;
    var j2 := j1 + "\", \"level\": \"" + l.level;
    var j3 := j2 + "\", \"thread\": \"" + l.thread;
    FirstMember(l);
    assert "\", \"level\": \"" == "\", \"" + "level" + "\": \"";
    AddMember(j1, "\", \"level\": \"", ms[1]);
    assert "\", \"thread\": \"" == "\", \"" + "thread" + "\": \"";
    AddMember(j2, "\", \"thread\": \"", ms[2]);
    assert "\", \"class\": \"" == "\", \"" + "class" + "\": \"";
    AddMember(j3, "\", \"class\": \"", ms[3]);
    FourMembers(ms[0], ms[1], ms[2], ms[3]);
    assert ms == [ms[0], ms[1], ms[2], ms[3]];
    Braced(MemberText(ms[0]), ", " + MemberText(ms[1]), ", " + MemberText(ms[2]), ", " + MemberText(ms[3]));
  }

  lemma Braced(a: string, b: string, c: string, d: string)
    ensures "{" + a + b + c + d == "{" + (a + b + c + d)
  {
  }

  lemma FourMembers(a: Member, b: Member, c: Member, d: Member)
    ensures MembersText([a, b, c, d])
         == MemberText(a) + (", " + MemberText(b)) + (", " + MemberText(c)) + (", " + MemberText(d))
  {
    assert [a, b, c, d] == [a, b, c] + [d] && [a, b, c] == [a, b] + [c] && [a, b] == [a] + [b];
    MembersConcat([a, b, c], [d]);
    MembersConcat([a, b], [c]);
    MembersConcat([a], [b]);
  }

  lemma FirstMember(l: Record)
    ensures "{\"timestamp\": \"" + l.date + " " + l.time + "\"" == "{" + MemberText(HeaderMembers(l)[0])
  {
    var v := l.date + " " + l.time;
    assert "{\"timestamp\": \"" == "{" + ("\"" + ("timestamp" + ("\"" + (": " + "\""))));
    TimestampGlue("timestamp", l.date, l.time);
  }

  lemma TimestampGlue(k: string, d: string, t: string)
    ensures "{" + ("\"" + (k + ("\"" + (": " + "\"")))) + d + " " + t + "\""
         == "{" + ("\"" + (k + ("\"" + (": " + ("\"" + (d + " " + t + "\""))))))
  {
  }

  function AllMembers(l: Record): seq<Member> {
    HeaderMembers(l) + EntryMembers(Entries(l))
  }

  lemma JsonIsMembers(l: Record)
    ensures JsonOf(l) == "{" + (MembersText(AllMembers(l)) + "}")
  {
    var es := Entries(l);
    var h := HeaderMembers(l);
    HeaderIsMembers(l);
    if es == [] {
      assert AllMembers(l) == h;
      EndGlue(HeaderJson(l), "", MembersText(h));
    } else {
      var j := Joined(es, "\", \"", "\": \"");
      EntriesAreMembers(es);
      MembersConcat(h, EntryMembers(es));
      SepGlue(HeaderJson(l), j, MembersText(h), MembersText(EntryMembers(es)));
    }
  }

  lemma EndGlue(a: string, s: string, h: string)
    requires s == "" && a + "\"" == "{" + h
    ensures a + s + "\"}" == "{" + (h + "}")
  {
    assert a + s + "\"}" == a + "\"" + "}";
  }

  lemma SepGlue(a: string, j: string, h: string, e: string)
    requires a + "\"" == "{" + h && "\"" + j + "\"" == e
    ensures a + ("\", \"" + j) + "\"}" == "{" + (h + (", " + e) + "}")
  {
    assert a + ("\", \"" + j) + "\"}" == a + "\"" + (", " + ("\"" + j + "\"")) + "}";
  }

  predicate JsonSafe(l: Record) {
    && JsonPlain(l.date) && JsonPlain(l.time) && JsonPlain(l.level) && JsonPlain(l.thread) && JsonPlain(l.cls)
    && forall k | 0 <= k < |Entries(l)| :: JsonText(Entries(l)[k].key) && JsonText(Entries(l)[k].value)
  }

  /** What a consumer of the JSON sees. */
  function JsonMeaning(l: Record): seq<Property> {
    [Property("timestamp", l.date + " " + l.time), Property("level", l.level),
     Property("thread", l.thread), Property("class", l.cls)] + Entries(l)
  }

  lemma HeaderFaithful(l: Record)
    requires JsonSafe(l)
    ensures forall m | m in HeaderMembers(l) :: Faithful(m)
  {
    PlainDecodes("timestamp");
    PlainDecodes("level");
    PlainDecodes("thread");
    PlainDecodes("class");
    PlainDecodes(l.date + " " + l.time);
    PlainDecodes(l.level);
    PlainDecodes(l.thread);
    PlainDecodes(l.cls);
  }

  lemma EntriesFaithful(es: seq<Property>)
    requires forall k | 0 <= k < |es| :: JsonText(es[k].key) && JsonText(es[k].value)
    ensures forall k | 0 <= k < |es| :: Faithful(EntryMembers(es)[k])
  {
    forall k | 0 <= k < |es|
      ensures Faithful(EntryMembers(es)[k])
    {
      EscapeDecodes(es[k].key);
      EscapeDecodes(es[k].value);
    }
  }

  lemma AllFaithful(a: seq<Member>, b: seq<Member>)
    requires forall m | m in a :: Faithful(m)
    requires forall k | 0 <= k < |b| :: Faithful(b[k])
    ensures forall k | 0 <= k < |a + b| :: Faithful((a + b)[k])
  {
  }

  lemma AllMeanings(l: Record)
    ensures Meanings(AllMembers(l)) == JsonMeaning(l)
  {
  }

  lemma ReadBraced(x: string)
    requires x != "" && x[0] == '\"'
    ensures ReadObject("{" + x) == ReadMembers(x)
  {
    assert ("{" + x)[1..] == x;
    assert SkipSpace(x) == x;
  }

  /** The JSON output is one flat object, and reading it gives the timestamp, level, thread,
      class, the properties in order, and the message last when there is one. */
  lemma JsonIsFaithful(l: Record)
    requires JsonSafe(l)
    ensures ReadObject(JsonOf(l)) == Got(JsonMeaning(l), "")
  {
    var ms := AllMembers(l);
    JsonIsMembers(l);
    HeaderFaithful(l);
    EntriesFaithful(Entries(l));
    AllFaithful(HeaderMembers(l), EntryMembers(Entries(l)));
    AllMeanings(l);
    MembersStart(ms);
    ReadAllMembers(ms);
    ReadBraced(MembersText(ms) + "}");
  }
}
