/** What the two writers of logging/logging.go produce, as text. */
module Printer {
  import opened Records
  import opened Text

  const BACKSPACE: char := 8 as char
  const FORM_FEED: char := 12 as char

  /** The seven characters that `escape` rewrites, with the letter that follows the backslash. */
  function EscapeLetter(c: char): (letter: char)
    ensures c == '\\' ==> letter == '\\'
    ensures letter == '\\' <==> c == '\\'
  {
    if c == BACKSPACE then 'b'
    else if c == FORM_FEED then 'f'
    else if c == '\n' then 'n'
    else if c == '\r' then 'r'
    else if c == '\t' then 't'
    else if c == '\"' then '\"'
    else if c == '\\' then '\\'
    else ' '
  }

  /** Backspace, tab, newline, form feed, return, quote and backslash are rewritten, and nothing else. */
  lemma EscapeLetters(c: char)
    ensures EscapeLetter(c) ==
            (match c as int
             case 8 => 'b'
             case 9 => 't'
             case 10 => 'n'
             case 12 => 'f'
             case 13 => 'r'
             case 34 => '"'
             case 92 => '\\'
             case _ => ' ')
  {
  }

  predicate IsEscaped(c: char) {
    EscapeLetter(c) != ' '
  }

  /** The replacement rune, as the bytes that are written for it. */
  const REPLACEMENT: string := [0xEF as char, 0xBF as char, 0xBD as char]

  /** `escape` of one rune: `r` is its bytes, or one byte that starts no rune. */
  function EscapeRune(r: string): string
    requires r != ""
  {
    if IsEscaped(r[0]) then ['\\', EscapeLetter(r[0])]
    else if |r| == 1 && !Ascii(r[0]) then REPLACEMENT
    else r
  }

  function Escape(s: string): string
    decreases |s|
  {
    if s == "" then "" else EscapeRune(s[..RuneWidth(s)]) + Escape(s[RuneWidth(s)..])
  }

  function Entry(p: Property, valueSep: string): string {
    Escape(p.key) + valueSep + Escape(p.value)
  }

  function Joined(entries: seq<Property>, keySep: string, valueSep: string): string {
    if entries == [] then
      ""
    else if |entries| == 1 then
      Entry(entries[0], valueSep)
    else
      Entry(entries[0], valueSep) + keySep + Joined(entries[1..], keySep, valueSep)
  }

  /** What `serialize` appends. */
  function Serialized(l: Record, headerSep: string, keySep: string, valueSep: string): string {
    if Entries(l) == [] then "" else headerSep + Joined(Entries(l), keySep, valueSep)
  }

  function OrDash(s: string): string {
    if s != "" then s else "-"
  }

  function TimestampText(l: Record): string {
    l.date + " " + l.time + "\t"
  }

  function SourceText(l: Record): string {
    l.level + "\t" + "[" + OrDash(l.thread) + "]" + "\t" + OrDash(l.cls)
  }

  /** `String` */
  function TextOf(l: Record): string {
    TimestampText(l) + SourceText(l) + Serialized(l, "\t", ", ", ": ")
  }

  function HeaderJson(l: Record): string {
    "{\"timestamp\": \"" + l.date + " " + l.time + "\", \"level\": \"" + l.level
    + "\", \"thread\": \"" + l.thread + "\", \"class\": \"" + l.cls
  }

  /** `JSON` */
  function JsonOf(l: Record): string {
    HeaderJson(l) + Serialized(l, "\", \"", "\", \"", "\": \"") + "\"}"
  }

  function LineTexts(logs: seq<Record>): seq<string> {
    seq(|logs|, k requires 0 <= k < |logs| => TextOf(logs[k]) + "\n")
  }

  /** The logs printed line by line. */
  function Lines(logs: seq<Record>): string {
    Concat(LineTexts(logs))
  }

  // Escaping

  /** Well-formed UTF-8. */
  predicate Utf8(s: string)
    decreases |s|
  {
    s == "" || ((Ascii(s[0]) || RuneWidth(s) > 1) && Utf8(s[RuneWidth(s)..]))
  }

  lemma {:induction false} AsciiIsUtf8(s: string)
    requires AllAscii(s)
    ensures Utf8(s)
  {
    if s != "" {
      AsciiIsUtf8(s[1..]);
    }
  }

  /** The inverse: a backslash and a letter become the character they stand for. */
  function Unescape(s: string): string
    decreases |s|
  {
    if s == "" then ""
    else if s[0] != '\\' || |s| == 1 then [s[0]] + Unescape(s[1..])
    else [Unletter(s[1])] + Unescape(s[2..])
  }

  function Unletter(letter: char): char {
    if letter == 'b' then BACKSPACE
    else if letter == 'f' then FORM_FEED
    else if letter == 'n' then '\n'
    else if letter == 'r' then '\r'
    else if letter == 't' then '\t'
    else letter
  }

  lemma {:induction false} UnescapePlain(r: string, rest: string)
    requires '\\' !in r
    ensures Unescape(r + rest) == r + Unescape(rest)
  {
    if r == "" {
      assert r + rest == rest;
    } else {
      assert (r + rest)[1..] == r[1..] + rest;
      UnescapePlain(r[1..], rest);
    }
  }

  lemma {:induction false} UnescapeEscapeUtf8(s: string)
    requires Utf8(s)
    ensures Unescape(Escape(s)) == s
    decreases |s|
  {
    if s != "" {
      var w := RuneWidth(s);
      var r := s[..w];
      UnescapeEscapeUtf8(s[w..]);
      assert s == r + s[w..];
      if IsEscaped(s[0]) {
        assert EscapeRune(r) == ['\\', EscapeLetter(s[0])];
        assert Escape(s)[2..] == Escape(s[w..]);
        assert r == [s[0]];
      } else {
        assert EscapeRune(r) == r;
        assert '\\' !in r;
        UnescapePlain(r, Escape(s[w..]));
      }
    }
  }

  lemma {:induction false} UnescapeEscapeLength(s: string)
    ensures |Unescape(Escape(s))| >= |s| + if Utf8(s) then 0 else 1
    decreases |s|
  {
    if s != "" {
      var w := RuneWidth(s);
      var e := EscapeRune(s[..w]);
      UnescapeEscapeLength(s[w..]);
      if IsEscaped(s[0]) {
        assert Escape(s)[2..] == Escape(s[w..]);
      } else {
        assert '\\' !in e;
        UnescapePlain(e, Escape(s[w..]));
      }
    }
  }

  /** Escaping loses nothing exactly when the text is well-formed: a byte that is not UTF-8 is
      written as the three bytes of the replacement rune. */
  lemma UnescapeEscape(s: string)
    ensures Unescape(Escape(s)) == s <==> Utf8(s)
  {
    UnescapeEscapeLength(s);
    if Utf8(s) {
      UnescapeEscapeUtf8(s);
    }
  }

  lemma {:induction false} EscapeHasNoControl(s: string)
    ensures forall c | c in Escape(s) :: c != '\n' && c != '\t'
    decreases |s|
  {
    if s != "" {
      EscapeHasNoControl(s[RuneWidth(s)..]);
    }
  }

  /** Text without such characters is printed as it is. */
  lemma {:induction false} EscapeIdentity(s: string)
    requires Utf8(s) && forall k | 0 <= k < |s| :: !IsEscaped(s[k])
    ensures Escape(s) == s
    decreases |s|
  {
    if s != "" {
      var w := RuneWidth(s);
      EscapeIdentity(s[w..]);
      assert s[..w] + s[w..] == s;
    }
  }
}
