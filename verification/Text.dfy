/** Go strings as the parser and the printers see them.

    A Go string is a sequence of bytes. It is modelled by a Dafny string whose characters are
    those bytes; a character above 0xFF never occurs and would be read as an invalid byte.
    Ranging over a string decodes UTF-8: a well-formed sequence gives one rune of one to four
    bytes, and any other byte gives the replacement rune and advances by one.
 */
module Text {

  predicate Ascii(c: char) {
    c as int < 0x80
  }

  predicate AllAscii(s: string) {
    forall k | 0 <= k < |s| :: Ascii(s[k])
  }

  predicate ByteIn(s: string, k: nat, lo: int, hi: int) {
    k < |s| && lo <= s[k] as int <= hi
  }

  /** Number of bytes of the first rune, by the table of section 4 of RFC 3629. */
  function RuneWidth(s: string): (w: nat)
    requires s != ""
    ensures 1 <= w <= |s| && w <= 4
    ensures Ascii(s[0]) ==> w == 1
    ensures w > 1 ==> forall k | 0 <= k < w :: !Ascii(s[k])
  {
    var b := s[0] as int;
    if 0xC2 <= b <= 0xDF && ByteIn(s, 1, 0x80, 0xBF) then
      2
    else if ByteIn(s, 1, if b == 0xE0 then 0xA0 else 0x80, if b == 0xED then 0x9F else 0xBF)
            && 0xE0 <= b <= 0xEF && ByteIn(s, 2, 0x80, 0xBF) then
      3
    else if ByteIn(s, 1, if b == 0xF0 then 0x90 else 0x80, if b == 0xF4 then 0x8F else 0xBF)
            && 0xF0 <= b <= 0xF4 && ByteIn(s, 2, 0x80, 0xBF) && ByteIn(s, 3, 0x80, 0xBF) then
      4
    else
      1
  }

  /** A text after which decoding always restarts: no rune can reach across its last byte. */
  predicate Settled(s: string) {
    s == "" || Ascii(s[|s| - 1])
  }

  lemma RuneWidthOfPrefix(a: string, b: string)
    requires a != "" && Settled(a)
    ensures RuneWidth(a + b) == RuneWidth(a)
    ensures Settled(a[RuneWidth(a)..])
  {
    assert forall k | 0 <= k < |a| :: (a + b)[k] == a[k];
    assert (a + b)[|a| - 1] == a[|a| - 1];
  }

  function Newlines(s: string): nat {
    if s == "" then 0 else (if s[0] == '\n' then 1 else 0) + Newlines(s[1..])
  }

  lemma {:induction false} NewlinesConcat(a: string, b: string)
    ensures Newlines(a + b) == Newlines(a) + Newlines(b)
  {
    if a == "" {
      assert a + b == b;
    } else {
      assert (a + b)[1..] == a[1..] + b;
      NewlinesConcat(a[1..], b);
    }
  }

  lemma {:induction false} NoNewlines(s: string)
    ensures Newlines(s) == 0 <==> '\n' !in s
  {
    if s != "" {
      assert s == [s[0]] + s[1..];
      NoNewlines(s[1..]);
    }
  }

  lemma Assoc(a: string, b: string, c: string)
    ensures a + b + c == a + (b + c)
  {
  }

  function Concat(parts: seq<string>): string {
    if parts == [] then "" else parts[0] + Concat(parts[1..])
  }

  lemma {:induction false} ConcatSplit(a: seq<string>, b: seq<string>)
    ensures Concat(a + b) == Concat(a) + Concat(b)
  {
    if a == [] {
      assert a + b == b;
    } else {
      assert (a + b)[1..] == a[1..] + b;
      ConcatSplit(a[1..], b);
    }
  }
}
