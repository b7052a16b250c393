/** JSON string text as it appears on the wire: the short and six-byte escapes
    of section 7 of RFC 8259, and the UTF-8 bytes of section 3 of RFC 3629.

    The writer measures an update with JsonEscapedLen and never builds the
    escaped text. Here the text, its bytes and a reader of both are written out,
    so that the measure can be compared with what it measures.
 */
module JsonText {
  import opened Options

  type Byte = b: nat | b < 256

  /** What one character contributes to json_escaped_len. */
  function EscapedCharLen(c: char): nat {
    if c == '"' || c == '\\' || c as int in {0x08, 0x09, 0x0A, 0x0C, 0x0D} then 2
    else if c as int < 0x20 then 6
    else Utf8CharLen(c)
  }

  /** char::len_utf8 */
  function Utf8CharLen(c: char): nat {
    var n := c as int;
    if n < 0x80 then 1 else if n < 0x800 then 2 else if n < 0x10000 then 3 else 4
  }

  /** json_escaped_len: the sum of EscapedCharLen over the characters of s. */
  function JsonEscapedLen(s: string): nat {
    if s == "" then 0 else EscapedCharLen(s[0]) + JsonEscapedLen(s[1..])
  }

  /** str::len, the number of UTF-8 bytes without escaping. */
  function Utf8Len(s: string): nat {
    if s == "" then 0 else Utf8CharLen(s[0]) + Utf8Len(s[1..])
  }

  // ----- The text that the measure stands for -----

  function HexDigit(n: nat): char
    requires n < 16
  {
    "0123456789abcdef"[n]
  }

  function HexValue(c: char): Option<nat> {
    if '0' <= c <= '9' then Some(c as int - '0' as int)
    else if 'a' <= c <= 'f' then Some(c as int - 'a' as int + 10)
    else None
  }

  /** The letter of the short escape of c, for the seven characters that have one here. */
  function ShortEscape(c: char): Option<char> {
    if c == '"' then Some('"')
    else if c == '\\' then Some('\\')
    else if c as int == 0x08 then Some('b')
    else if c as int == 0x09 then Some('t')
    else if c as int == 0x0A then Some('n')
    else if c as int == 0x0C then Some('f')
    else if c as int == 0x0D then Some('r')
    else None
  }

  function EscapeChar(c: char): string {
    var short := ShortEscape(c);
    if short.Some? then ['\\', short.value]
    else if c as int < 0x20 then ['\\', 'u', '0', '0', HexDigit(c as int / 16), HexDigit(c as int % 16)]
    else [c]
  }

  function Escape(s: string): string {
    if s == "" then "" else EscapeChar(s[0]) + Escape(s[1..])
  }

  /** The character of a short escape letter. */
  function ShortMeaning(c: char): Option<char> {
    if c == '"' || c == '\\' || c == '/' then Some(c)
    else if c == 'b' then Some(0x08 as char)
    else if c == 't' then Some(0x09 as char)
    else if c == 'n' then Some(0x0A as char)
    else if c == 'f' then Some(0x0C as char)
    else if c == 'r' then Some(0x0D as char)
    else None
  }

  function Hex4(s: string): Option<char>
    requires |s| == 4
  {
    var a, b, c, d := HexValue(s[0]), HexValue(s[1]), HexValue(s[2]), HexValue(s[3]);
    if a.Some? && b.Some? && c.Some? && d.Some? then
      var n := ((a.value * 16 + b.value) * 16 + c.value) * 16 + d.value;
      if 0 <= n < 0xD800 then Some(n as char) else None
    else None
  }

  /** Reads one possibly escaped character: the character and the rest. */
  function ReadChar(s: string): Option<(char, string)> {
    if s == "" || s[0] == '"' then None
    else if s[0] != '\\' then Some((s[0], s[1..]))
    else if |s| >= 6 && s[1] == 'u' then
      var c := Hex4(s[2..6]);
      if c.Some? then Some((c.value, s[6..])) else None
    else if |s| >= 2 && ShortMeaning(s[1]).Some? then Some((ShortMeaning(s[1]).value, s[2..]))
    else None
  }

  /** Reads an escaped string up to its closing quote: the string and the text after the quote. */
  function ReadString(s: string): Option<(string, string)>
    decreases |s|
  {
    if s == "" then None
    else if s[0] == '"' then Some(("", s[1..]))
    else
      var c := ReadChar(s);
      if c.None? || |c.value.1| >= |s| then None
      else
        var tail := ReadString(c.value.1);
        if tail.None? then None else Some(([c.value.0] + tail.value.0, tail.value.1))
  }

  /** The UTF-8 bytes of one character. */
  function Utf8Char(c: char): (bytes: seq<Byte>)
    ensures |bytes| == Utf8CharLen(c)
  {
    var n := c as int;
    if n < 0x80 then [n]
    else if n < 0x800 then [0xC0 + n / 64, 0x80 + n % 64]
    else if n < 0x10000 then [0xE0 + n / 4096, 0x80 + n / 64 % 64, 0x80 + n % 64]
    else [0xF0 + n / 262144, 0x80 + n / 4096 % 64, 0x80 + n / 64 % 64, 0x80 + n % 64]
  }

  function Utf8(s: string): seq<Byte> {
    if s == "" then [] else Utf8Char(s[0]) + Utf8(s[1..])
  }

  /** The code point that starts a byte sequence, and the number of bytes it takes. */
  function FirstCodePoint(b: seq<Byte>): (int, nat)
    requires b != []
  {
    var low := (i: nat) requires i < |b| => b[i] as int - 0x80;
    var lead := b[0] as int;
    if lead < 0x80 then (lead, 1)
    else if lead < 0xE0 && |b| >= 2 then ((lead - 0xC0) * 64 + low(1), 2)
    else if lead < 0xF0 && |b| >= 3 then ((lead - 0xE0) * 4096 + low(1) * 64 + low(2), 3)
    else if |b| >= 4 then ((lead - 0xF0) * 262144 + low(1) * 4096 + low(2) * 64 + low(3), 4)
    else (-1, 1)
  }

  function FromUtf8(b: seq<Byte>): Option<string>
    decreases |b|
  {
    if b == [] then Some("")
    else
      var (n, used) := FirstCodePoint(b);
      if 0 <= n < 0xD800 || 0xE000 <= n < 0x11_0000 then
        var tail := FromUtf8(b[used..]);
        if tail.None? then None else Some([n as char] + tail.value)
      else None
  }

  // ----- The measure is the length of the text, and the text is readable -----

  lemma HexRoundTrip(n: nat)
    requires n < 16
    ensures HexValue(HexDigit(n)) == Some(n)
  {
    if n < 10 {
      assert HexDigit(n) as int == '0' as int + n;
    } else {
      assert HexDigit(n) as int == 'a' as int + n - 10;
    }
  }

  lemma EscapedChar(c: char, rest: string)
    ensures ReadChar(EscapeChar(c) + rest) == Some((c, rest))
    ensures EscapeChar(c)[0] != '"'
  {
    var s := EscapeChar(c) + rest;
    if ShortEscape(c).Some? {
      assert s[2..] == rest;
    } else if c as int < 0x20 {
      HexRoundTrip(c as int / 16);
      HexRoundTrip(c as int % 16);
      assert s[2..6] == ['0', '0', HexDigit(c as int / 16), HexDigit(c as int % 16)];
      assert s[6..] == rest;
    } else {
      assert s[1..] == rest;
    }
  }

  /** Reading an escaped string recovers it and stops exactly at its closing quote. */
  lemma {:induction false} EscapeIsUndone(s: string, rest: string)
    ensures ReadString(Escape(s) + "\"" + rest) == Some((s, rest))
  {
    if s == "" {
      assert (Escape(s) + "\"" + rest)[1..] == rest;
    } else {
      var after := Escape(s[1..]) + "\"" + rest;
      assert Escape(s) + "\"" + rest == EscapeChar(s[0]) + after;
      EscapedChar(s[0], after);
      EscapeIsUndone(s[1..], rest);
      assert s == [s[0]] + s[1..];
    }
  }

  lemma {:induction false} Utf8Concat(a: string, b: string)
    ensures Utf8(a + b) == Utf8(a) + Utf8(b)
  {
    if a == "" {
      assert a + b == b;
    } else {
      assert (a + b)[1..] == a[1..] + b;
      Utf8Concat(a[1..], b);
    }
  }

  lemma Utf8CharIsRead(c: char, rest: seq<Byte>)
    ensures FirstCodePoint(Utf8Char(c) + rest) == (c as int, |Utf8Char(c)|)
  {
    var n := c as int;
    assert n / 64 % 64 + n / 4096 * 64 == n / 64;
    assert n / 4096 % 64 + n / 262144 * 64 == n / 4096;
  }

  /** The bytes of a string decode to that string. */
  lemma {:induction false} Utf8RoundTrip(s: string)
    ensures FromUtf8(Utf8(s)) == Some(s)
  {
    if s != "" {
      Utf8CharIsRead(s[0], Utf8(s[1..]));
      assert Utf8(s)[|Utf8Char(s[0])|..] == Utf8(s[1..]);
      Utf8RoundTrip(s[1..]);
      assert s == [s[0]] + s[1..];
    }
  }

  lemma AsciiBytes(s: string)
    requires forall i :: 0 <= i < |s| ==> s[i] as int < 0x80
    ensures |Utf8(s)| == |s|
  {
    if s != "" { AsciiBytes(s[1..]); }
  }

  lemma EscapedCharBytes(c: char)
    ensures |Utf8(EscapeChar(c))| == EscapedCharLen(c)
  {
    if ShortEscape(c).Some? || c as int < 0x20 {
      AsciiBytes(EscapeChar(c));
    } else {
      assert Utf8([c]) == Utf8Char(c) + Utf8([]);
    }
  }

  /** json_escaped_len(s) is exactly the byte length of the escaped text of s, and that
      text, decoded from its bytes and unescaped, is s. */
  lemma {:induction false} EscapedLenIsExact(s: string)
    ensures |Utf8(Escape(s))| == JsonEscapedLen(s)
    ensures FromUtf8(Utf8(Escape(s) + "\"")) == Some(Escape(s) + "\"")
    ensures ReadString(Escape(s) + "\"") == Some((s, ""))
  {
    Utf8RoundTrip(Escape(s) + "\"");
    EscapeIsUndone(s, "");
    assert Escape(s) + "\"" + "" == Escape(s) + "\"";
    if s != "" {
      EscapedCharBytes(s[0]);
      Utf8Concat(EscapeChar(s[0]), Escape(s[1..]));
      EscapedLenIsExact(s[1..]);
    }
  }

  /** The measure is additive, so fields can be measured one by one. */
  lemma {:induction false} EscapedLenConcat(a: string, b: string)
    ensures JsonEscapedLen(a + b) == JsonEscapedLen(a) + JsonEscapedLen(b)
  {
    if a == "" {
      assert a + b == b;
    } else {
      assert (a + b)[1..] == a[1..] + b;
      EscapedLenConcat(a[1..], b);
    }
  }

  /** str::len is the number of bytes that the string has in UTF-8. */
  lemma {:induction false} Utf8LenIsExact(s: string)
    ensures Utf8Len(s) == |Utf8(s)|
  {
    if s != "" { Utf8LenIsExact(s[1..]); }
  }
}
