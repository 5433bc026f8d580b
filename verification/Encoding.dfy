/** UTF-8 from its arithmetic (section 3 of RFC 3629): what `Text.RuneWidth` decodes is exactly what
    encoding a scalar value writes. */
module Encoding {
  import opened Text
  import opened Printer

  /** The numbers that have an encoding: all but the surrogates. */
  predicate Scalar(v: int) {
    0 <= v <= 0x10FFFF && !(0xD800 <= v <= 0xDFFF)
  }

  function Byte(b: int): char
    requires 0 <= b <= 0xFF
  {
    b as char
  }

  /** The low six bits, after `shift` bits have been dropped, in a following byte. */
  function Following(v: nat, shift: nat): char
    requires shift > 0
  {
    Byte(0x80 + (v / shift) % 0x40)
  }

  function Encode(v: int): string
    requires Scalar(v)
  {
    if v < 0x80 then
      [Byte(v)]
    else if v < 0x800 then
      [Byte(0xC0 + v / 0x40), Following(v, 1)]
    else if v < 0x10000 then
      [Byte(0xE0 + v / 0x1000), Following(v, 0x40), Following(v, 1)]
    else
      [Byte(0xF0 + v / 0x40000), Following(v, 0x1000), Following(v, 0x40), Following(v, 1)]
  }

  function EncodeAll(vs: seq<int>): string
    requires forall k | 0 <= k < |vs| :: Scalar(vs[k])
  {
    if vs == [] then "" else Encode(vs[0]) + EncodeAll(vs[1..])
  }

  lemma FirstBytes(e: string, rest: string)
    ensures forall k | 0 <= k < |e| :: (e + rest)[k] == e[k]
  {
  }

  /** An encoded value is read as one rune, whatever follows. */
  lemma EncodedIsRune(v: int, rest: string)
    requires Scalar(v)
    ensures RuneWidth(Encode(v) + rest) == |Encode(v)|
  {
    FirstBytes(Encode(v), rest);
    var s := Encode(v) + rest;
    if 0x80 <= v < 0x800 {
      assert s[0] as int == 0xC0 + v / 0x40 && s[1] as int == 0x80 + v % 0x40;
    } else if 0x800 <= v < 0x10000 {
      ThreeBytes(v, s);
    } else if v >= 0x10000 {
      FourBytes(v, s);
    }
  }

  lemma ThreeBytes(v: int, s: string)
    requires 0x800 <= v < 0x10000 && Scalar(v) && Encode(v) <= s
    ensures RuneWidth(s) == 3
  {
    assert s[0] as int == 0xE0 + v / 0x1000 && s[1] as int == 0x80 + (v / 0x40) % 0x40;
    assert s[2] as int == 0x80 + v % 0x40;
    assert v / 0x40 == 0x40 * (v / 0x1000) + (v / 0x40) % 0x40;
  }

  lemma FourBytes(v: int, s: string)
    requires 0x10000 <= v && Scalar(v) && Encode(v) <= s
    ensures RuneWidth(s) == 4
  {
    assert s[0] as int == 0xF0 + v / 0x40000 && s[1] as int == 0x80 + (v / 0x1000) % 0x40;
    assert s[2] as int == 0x80 + (v / 0x40) % 0x40 && s[3] as int == 0x80 + v % 0x40;
    assert v / 0x1000 == 0x40 * (v / 0x40000) + (v / 0x1000) % 0x40;
  }

  /** The value that the bytes of a rune stand for. */
  function Decode(r: string): int
    requires 1 <= |r| <= 4
  {
    var b := (k: int) requires 0 <= k < |r| => r[k] as int;
    if |r| == 1 then b(0)
    else if |r| == 2 then (b(0) - 0xC0) * 0x40 + (b(1) - 0x80)
    else if |r| == 3 then (b(0) - 0xE0) * 0x1000 + (b(1) - 0x80) * 0x40 + (b(2) - 0x80)
    else (b(0) - 0xF0) * 0x40000 + (b(1) - 0x80) * 0x1000 + (b(2) - 0x80) * 0x40 + (b(3) - 0x80)
  }

  ghost predicate Encoded(r: string) {
    1 < |r| <= 4 && Scalar(Decode(r)) && Decode(r) > 0x7F && Encode(Decode(r)) == r
  }

  predicate FollowingByte(c: char) {
    0x80 <= c as int <= 0xBF
  }

  lemma TwoBytesEncoded(r: string)
    requires |r| == 2 && 0xC2 <= r[0] as int <= 0xDF && FollowingByte(r[1])
    ensures Encoded(r)
  {
    assert Decode(r) / 0x40 == r[0] as int - 0xC0;
  }

  lemma ThreeBytesEncoded(r: string)
    requires |r| == 3 && 0xE0 <= r[0] as int <= 0xEF && FollowingByte(r[1]) && FollowingByte(r[2])
    requires (r[0] as int == 0xE0 ==> r[1] as int >= 0xA0) && (r[0] as int == 0xED ==> r[1] as int <= 0x9F)
    ensures Encoded(r)
  {
    FourByteParts(0, r[0] as int - 0xE0, r[1] as int - 0x80, r[2] as int - 0x80);
  }

  lemma FourBytesEncoded(r: string)
    requires |r| == 4 && 0xF0 <= r[0] as int <= 0xF4
    requires FollowingByte(r[1]) && FollowingByte(r[2]) && FollowingByte(r[3])
    requires (r[0] as int == 0xF0 ==> r[1] as int >= 0x90) && (r[0] as int == 0xF4 ==> r[1] as int <= 0x8F)
    ensures Encoded(r)
  {
    var a, b, c, d := r[0] as int - 0xF0, r[1] as int - 0x80, r[2] as int - 0x80, r[3] as int - 0x80;
    FourByteParts(a, b, c, d);
    var v := a * 0x40000 + b * 0x1000 + c * 0x40 + d;
    assert Decode(r) == v && 0x10000 <= v <= 0x10FFFF;
    assert Encode(v) == [Byte(0xF0 + a), Byte(0x80 + b), Byte(0x80 + c), Byte(0x80 + d)];
    assert Byte(0xF0 + a) == r[0] && Byte(0x80 + b) == r[1] && Byte(0x80 + c) == r[2] && Byte(0x80 + d) == r[3];
  }

  /** Bytes that are read as one rune of several bytes are the encoding of a value that is not ASCII. */
  lemma RuneIsEncoded(s: string)
    requires s != "" && RuneWidth(s) > 1
    ensures Encoded(s[..RuneWidth(s)])
  {
    var r := s[..RuneWidth(s)];
    if |r| == 2 {
      TwoBytesEncoded(r);
    } else if |r| == 3 {
      ThreeBytesEncoded(r);
    } else {
      FourBytesEncoded(r);
    }
  }

  lemma FourByteParts(a: int, b: int, c: int, d: int)
    requires 0 <= a && 0 <= b < 0x40 && 0 <= c < 0x40 && 0 <= d < 0x40
    ensures var v := a * 0x40000 + b * 0x1000 + c * 0x40 + d;
            && v / 0x40000 == a && v / 0x1000 == a * 0x40 + b
            && v / 0x40 == a * 0x1000 + b * 0x40 + c && v % 0x40 == d
            && (v / 0x1000) % 0x40 == b && (v / 0x40) % 0x40 == c
  {
  }

  lemma AsciiIsEncoded(c: char)
    requires Ascii(c)
    ensures Scalar(c as int) && Encode(c as int) == [c]
  {
  }

  /** The values that a well-formed text encodes. */
  lemma {:induction false} Decoded(s: string) returns (vs: seq<int>)
    requires Utf8(s)
    ensures (forall k | 0 <= k < |vs| :: Scalar(vs[k])) && EncodeAll(vs) == s
    decreases |s|
  {
    if s == "" {
      vs := [];
    } else {
      var v := FirstValue(s);
      var more := Decoded(s[RuneWidth(s)..]);
      vs := [v] + more;
      assert vs[1..] == more && Encode(v) + s[RuneWidth(s)..] == s;
    }
  }

  /** The value encoded at the front of a text. */
  lemma FirstValue(s: string) returns (v: int)
    requires s != "" && (Ascii(s[0]) || RuneWidth(s) > 1)
    ensures Scalar(v) && Encode(v) == s[..RuneWidth(s)]
  {
    if Ascii(s[0]) {
      v := s[0] as int;
      AsciiIsEncoded(s[0]);
    } else {
      v := Decode(s[..RuneWidth(s)]);
      RuneIsEncoded(s);
    }
  }

  lemma {:induction false} EncodedIsUtf8(vs: seq<int>)
    requires forall k | 0 <= k < |vs| :: Scalar(vs[k])
    ensures Utf8(EncodeAll(vs))
  {
    if vs != [] {
      var e, rest := Encode(vs[0]), EncodeAll(vs[1..]);
      EncodedIsUtf8(vs[1..]);
      EncodedIsRune(vs[0], rest);
      assert (e + rest)[|e|..] == rest && (e + rest)[0] == e[0];
    }
  }

  ghost predicate IsEncoding(s: string) {
    exists vs: seq<int> :: (forall k | 0 <= k < |vs| :: Scalar(vs[k])) && EncodeAll(vs) == s
  }

  /** Well-formed text is exactly what encoding a sequence of scalar values writes. */
  lemma Utf8Exactly(s: string)
    ensures Utf8(s) <==> IsEncoding(s)
  {
    if Utf8(s) {
      var vs := Decoded(s);
    }
    if IsEncoding(s) {
      var vs :| (forall k | 0 <= k < |vs| :: Scalar(vs[k])) && EncodeAll(vs) == s;
      EncodedIsUtf8(vs);
    }
  }

  // Escaping, value by value

  lemma EscapeFirst(s: string, r: string, rest: string)
    requires r != "" && s == r + rest && RuneWidth(s) == |r|
    ensures Escape(s) == EscapeRune(r) + Escape(rest)
  {
    assert s[..|r|] == r && s[|r|..] == rest;
  }

  /** An encoded value that is not one of the seven escaped characters is written as it is. */
  lemma EncodedIsWritten(v: int, rest: string)
    requires Scalar(v) && v !in {8, 9, 10, 12, 13, 34, 92}
    ensures Escape(Encode(v) + rest) == Encode(v) + Escape(rest)
  {
    EncodedIsRune(v, rest);
    EscapeFirst(Encode(v) + rest, Encode(v), rest);
    EscapeLetters(Encode(v)[0]);
  }

  /** A byte at which no encoding starts is written as the encoding of the replacement character. */
  lemma StrayByteIsReplaced(c: char, rest: string)
    requires c as int <= 0xFF && forall v | Scalar(v) :: !(Encode(v) <= [c] + rest)
    ensures Escape([c] + rest) == Encode(0xFFFD) + Escape(rest)
  {
    var s := [c] + rest;
    if Ascii(s[0]) || RuneWidth(s) > 1 {
      var v := FirstValue(s);
    }
    EscapeFirst(s, [c], rest);
    EscapeLetters(c);
    assert Encode(0xFFFD) == REPLACEMENT;
  }
}
