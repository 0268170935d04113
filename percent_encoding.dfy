/**
 * Percent-encoding as Python's `urllib.parse.quote` does it with its default
 * `safe='/'`: ASCII letters, digits, `_.-~` and `/` are kept, every other
 * character is written as its UTF-8 bytes, each as `%XX` with upper-case hex.
 */
module PercentEncoding {

  /** The characters `quote` leaves unchanged. */
  predicate IsSafe(c: char) {
    ('A' <= c <= 'Z') || ('a' <= c <= 'z') || ('0' <= c <= '9') ||
    c == '_' || c == '.' || c == '-' || c == '~' || c == '/'
  }

  predicate IsHexDigit(c: char) {
    ('0' <= c <= '9') || ('A' <= c <= 'F')
  }

  /** The upper-case hex digit for `d`. */
  function HexDigit(d: nat): (c: char)
    requires d < 16
    ensures IsHexDigit(c)
  {
    if d < 10 then ('0' as int + d) as char else ('A' as int + d - 10) as char
  }

  function HexValue(c: char): (v: nat)
    requires IsHexDigit(c)
    ensures v < 16 && HexDigit(v) == c
  {
    if '0' <= c <= '9' then c as int - '0' as int else c as int - 'A' as int + 10
  }

  /** One byte as a `%XX` escape. */
  function Escape(b: nat): (r: string)
    requires b < 256
    ensures |r| == 3 && r[0] == '%' && IsHexDigit(r[1]) && IsHexDigit(r[2])
    ensures 16 * HexValue(r[1]) + HexValue(r[2]) == b
  {
    var hi, lo := b / 16, b % 16;
    assert HexValue(HexDigit(hi)) == hi && HexValue(HexDigit(lo)) == lo;
    "%" + [HexDigit(hi), HexDigit(lo)]
  }

  /** A UTF-8 continuation byte, `10xxxxxx`. */
  predicate IsContinuation(b: nat) {
    0x80 <= b < 0xC0
  }

  /**
   * The UTF-8 encoding of one Unicode scalar value: the shortest form, a
   * lead byte that announces the length, then continuation bytes.
   */
  function Utf8(cp: nat): (bytes: seq<nat>)
    requires cp < 0x11_0000
    ensures 1 <= |bytes| <= 4
    ensures forall i :: 0 <= i < |bytes| ==> bytes[i] < 256
    ensures cp < 0x80 <==> |bytes| == 1
    ensures cp < 0x800 <==> |bytes| <= 2
    ensures cp < 0x1_0000 <==> |bytes| <= 3
    ensures cp < 0x80 ==> bytes == [cp]
    ensures |bytes| == 2 ==> 0xC2 <= bytes[0] < 0xE0
    ensures |bytes| == 3 ==> 0xE0 <= bytes[0] < 0xF0
    ensures |bytes| == 4 ==> 0xF0 <= bytes[0] <= 0xF4
    ensures forall i :: 1 <= i < |bytes| ==> IsContinuation(bytes[i])
  {
    if cp < 0x80 then [cp]
    else if cp < 0x800 then [0xC0 + cp / 64, 0x80 + cp % 64]
    else if cp < 0x1_0000 then [0xE0 + cp / 4096, 0x80 + (cp / 64) % 64, 0x80 + cp % 64]
    else [0xF0 + cp / 262144, 0x80 + (cp / 4096) % 64, 0x80 + (cp / 64) % 64, 0x80 + cp % 64]
  }

  /**
   * Reading a UTF-8 sequence back: the payload bits of the lead byte
   * (7, 5, 4 or 3 of them by length) followed by 6 bits per continuation byte.
   */
  function Utf8Decode(bytes: seq<nat>): int
    requires 1 <= |bytes| <= 4
  {
    if |bytes| == 1 then bytes[0]
    else if |bytes| == 2 then (bytes[0] % 32) * 64 + bytes[1] % 64
    else if |bytes| == 3 then (bytes[0] % 16) * 4096 + (bytes[1] % 64) * 64 + bytes[2] % 64
    else (bytes[0] % 8) * 262144 + (bytes[1] % 64) * 4096 + (bytes[2] % 64) * 64 + bytes[3] % 64
  }

  lemma Utf8RoundTripTwo(cp: nat)
    requires 0x80 <= cp < 0x800
    ensures Utf8Decode(Utf8(cp)) == cp
  {
    var hi, lo := cp / 64, cp % 64;
    assert Utf8(cp) == [0xC0 + hi, 0x80 + lo];
    assert (0xC0 + hi) % 32 == hi;
    assert (0x80 + lo) % 64 == lo;
  }

  lemma Utf8RoundTripThree(cp: nat)
    requires 0x800 <= cp < 0x1_0000
    ensures Utf8Decode(Utf8(cp)) == cp
  {
    var hi, mid, lo := cp / 4096, (cp / 64) % 64, cp % 64;
    assert cp / 64 == 64 * hi + mid;
    assert Utf8(cp) == [0xE0 + hi, 0x80 + mid, 0x80 + lo];
    assert (0xE0 + hi) % 16 == hi;
    assert (0x80 + mid) % 64 == mid;
    assert (0x80 + lo) % 64 == lo;
  }

  lemma Utf8RoundTripFour(cp: nat)
    requires 0x1_0000 <= cp < 0x11_0000
    ensures Utf8Decode(Utf8(cp)) == cp
  {
    var top, hi, mid, lo := cp / 262144, (cp / 4096) % 64, (cp / 64) % 64, cp % 64;
    assert cp / 4096 == 64 * top + hi;
    assert cp / 64 == 64 * (cp / 4096) + mid;
    assert Utf8(cp) == [0xF0 + top, 0x80 + hi, 0x80 + mid, 0x80 + lo];
    assert (0xF0 + top) % 8 == top;
    assert (0x80 + hi) % 64 == hi;
    assert (0x80 + mid) % 64 == mid;
    assert (0x80 + lo) % 64 == lo;
  }

  /** Decoding the encoding of a code point gives the code point back. */
  lemma Utf8RoundTrip(cp: nat)
    requires cp < 0x11_0000
    ensures Utf8Decode(Utf8(cp)) == cp
  {
    if cp < 0x80 {
    } else if cp < 0x800 {
      Utf8RoundTripTwo(cp);
    } else if cp < 0x1_0000 {
      Utf8RoundTripThree(cp);
    } else {
      Utf8RoundTripFour(cp);
    }
  }

  function EscapeAll(bytes: seq<nat>): (r: string)
    requires forall i :: 0 <= i < |bytes| ==> bytes[i] < 256
    ensures |r| == 3 * |bytes|
    ensures forall i :: 0 <= i < |r| ==> r[i] == '%' || IsHexDigit(r[i])
  {
    if bytes == [] then [] else Escape(bytes[0]) + EscapeAll(bytes[1..])
  }

  function QuoteChar(c: char): (r: string)
    ensures |r| >= 1
    ensures forall i :: 0 <= i < |r| ==> IsSafe(r[i]) || r[i] == '%' || IsHexDigit(r[i])
  {
    if IsSafe(c) then [c] else EscapeAll(Utf8(c as nat))
  }

  /** `urllib.parse.quote(s)`. */
  function Quote(s: string): (r: string)
    ensures forall i :: 0 <= i < |r| ==> IsSafe(r[i]) || r[i] == '%' || IsHexDigit(r[i])
    ensures |r| >= |s|
  {
    if s == [] then [] else QuoteChar(s[0]) + Quote(s[1..])
  }

  /**
   * Decodes the `%XX` escapes that `Quote` writes, one byte per escape into one
   * character. On ASCII text this is the inverse of `Quote` (see UnquoteQuote).
   */
  function Unquote(s: string): string
    decreases |s|
  {
    if |s| >= 3 && s[0] == '%' && IsHexDigit(s[1]) && IsHexDigit(s[2]) then
      [(16 * HexValue(s[1]) + HexValue(s[2])) as char] + Unquote(s[3..])
    else if s == [] then []
    else [s[0]] + Unquote(s[1..])
  }

  predicate IsAscii(s: string) {
    forall i :: 0 <= i < |s| ==> s[i] as int < 128
  }

  lemma UnquoteQuoteChar(c: char, rest: string)
    requires c as int < 128
    ensures Unquote(QuoteChar(c) + rest) == [c] + Unquote(rest)
  {
  }

  /** Decoding what `Quote` wrote gives back the original ASCII text. */
  lemma {:induction false} UnquoteQuote(s: string)
    requires IsAscii(s)
    ensures Unquote(Quote(s)) == s
  {
    if s != [] {
      UnquoteQuote(s[1..]);
      UnquoteQuoteChar(s[0], Quote(s[1..]));
    }
  }

  /** Text made only of safe characters is left as it is. */
  lemma {:induction false} QuoteKeepsSafeText(s: string)
    requires forall i :: 0 <= i < |s| ==> IsSafe(s[i])
    ensures Quote(s) == s
  {
    if s != [] {
      QuoteKeepsSafeText(s[1..]);
    }
  }
}
