/**
 * The part of `encoding/json` that the request encoder needs: writing a
 * string literal the way `json.Marshal` does (HTML-safe escaping, the short
 * escapes of Go 1.22 and later) and writing an unsigned number. Each writer
 * has a reader that takes back what it wrote, which is how the encoder's
 * output is shown to determine its input.
 */
module Json {
  import opened Wrappers
  import opened Text

  /** Lower-case hexadecimal digit, as in encoding/json's `hex` table. */
  function HexDigit(d: nat): (c: char)
    requires d < 16
  {
    if d < 10 then ('0' as int + d) as char else ('a' as int + d - 10) as char
  }

  function HexValue(c: char): Option<nat>
  {
    if '0' <= c <= '9' then Some(c as int - '0' as int)
    else if 'a' <= c <= 'f' then Some(c as int - 'a' as int + 10)
    else if 'A' <= c <= 'F' then Some(c as int - 'A' as int + 10)
    else None
  }

  /** The value of four hexadecimal digits, as in a `\uXXXX` escape. */
  function Hex4(s: string): (r: Option<nat>)
    requires |s| == 4
    ensures r.Some? ==> r.value < 0x1_0000
  {
    match (HexValue(s[0]), HexValue(s[1]), HexValue(s[2]), HexValue(s[3]))
    case (Some(a), Some(b), Some(c), Some(d)) =>
      if a < 16 && b < 16 && c < 16 && d < 16 then Some(((a * 16 + b) * 16 + c) * 16 + d) else None
    case _ => None
  }

  /** How `json.Marshal` writes one character inside a string literal. */
  function EscapeChar(c: char): (e: string)
    ensures |e| >= 1
  {
    var n := c as int;
    if c == '"' || c == '\\' then ['\\', c]
    else if n == 0x08 then "\\b"
    else if n == 0x0C then "\\f"
    else if c == '\n' then "\\n"
    else if c == '\r' then "\\r"
    else if c == '\t' then "\\t"
    else if n < 0x20 || c == '<' || c == '>' || c == '&' then
      ['\\', 'u', '0', '0', HexDigit(n / 16), HexDigit(n % 16)]
    else if n == 0x2028 || n == 0x2029 then
      ['\\', 'u', '2', '0', '2', HexDigit(n % 16)]
    else [c]
  }

  function Escape(s: string): string
    decreases |s|
  {
    if s == [] then [] else EscapeChar(s[0]) + Escape(s[1..])
  }

  /** `json.Marshal` of a Go string: the escaped text between double quotes. */
  function Quote(s: string): string
  {
    "\"" + Escape(s) + "\""
  }

  /** The character a one-letter escape `\x` stands for. */
  function ShortEscape(x: char): Option<char>
  {
    if x == '"' || x == '\\' || x == '/' then Some(x)
    else if x == 'b' then Some(0x08 as char)
    else if x == 'f' then Some(0x0C as char)
    else if x == 'n' then Some('\n')
    else if x == 'r' then Some('\r')
    else if x == 't' then Some('\t')
    else None
  }

  function Prepend(c: char, r: Option<(string, string)>): Option<(string, string)>
  {
    match r
    case None => None
    case Some((text, rest)) => Some(([c] + text, rest))
  }

  /**
   * Reads the body of a string literal whose opening quote has been
   * consumed: the decoded text up to the closing quote, and what follows.
   * Raw control characters are rejected; a `\u` escape must name a
   * character (escaped surrogate halves are not read).
   */
  function ReadStringBody(s: string): (r: Option<(string, string)>)
    ensures r.Some? ==> |r.value.1| < |s|
    decreases |s|
  {
    if s == [] then None
    else if s[0] == '"' then Some(([], s[1..]))
    else if s[0] == '\\' then
      if |s| >= 2 && ShortEscape(s[1]).Some? then
        Prepend(ShortEscape(s[1]).value, ReadStringBody(s[2..]))
      else if |s| >= 6 && s[1] == 'u' && Hex4(s[2..6]).Some?
              && (Hex4(s[2..6]).value < 0xD800 || 0xE000 <= Hex4(s[2..6]).value) then
        Prepend(Hex4(s[2..6]).value as char, ReadStringBody(s[6..]))
      else None
    else if (s[0] as int) < 0x20 then None
    else Prepend(s[0], ReadStringBody(s[1..]))
  }

  /** Reads a string literal at the start of `s`. */
  function ReadString(s: string): Option<(string, string)>
  {
    if |s| > 0 && s[0] == '"' then ReadStringBody(s[1..]) else None
  }

  lemma HexDigitValue(d: nat)
    requires d < 16
    ensures HexValue(HexDigit(d)) == Some(d)
  {
  }

  /** The characters with a two-character escape. */
  predicate ShortEscaped(c: char)
  {
    c == '"' || c == '\\' || c as int == 0x08 || c as int == 0x0C || c == '\n' || c == '\r' || c == '\t'
  }

  lemma ReadShortEscaped(c: char, tail: string)
    requires ShortEscaped(c)
    ensures ReadStringBody(EscapeChar(c) + tail) == Prepend(c, ReadStringBody(tail))
  {
    var e := EscapeChar(c);
    assert |e| == 2 && e[0] == '\\' && ShortEscape(e[1]) == Some(c);
    assert (e + tail)[2..] == tail;
  }

  lemma ReadHexEscaped(c: char, tail: string)
    requires !ShortEscaped(c) && (c as int < 0x20 || c == '<' || c == '>' || c == '&')
    ensures ReadStringBody(EscapeChar(c) + tail) == Prepend(c, ReadStringBody(tail))
  {
    var n := c as int;
    var s := EscapeChar(c) + tail;
    HexDigitValue(n / 16);
    HexDigitValue(n % 16);
    assert s[2..6] == ['0', '0', HexDigit(n / 16), HexDigit(n % 16)];
    assert Hex4(s[2..6]) == Some(n);
    assert s[6..] == tail;
  }

  lemma ReadSeparatorEscaped(c: char, tail: string)
    requires c as int == 0x2028 || c as int == 0x2029
    ensures ReadStringBody(EscapeChar(c) + tail) == Prepend(c, ReadStringBody(tail))
  {
    var n := c as int;
    var s := EscapeChar(c) + tail;
    HexDigitValue(n % 16);
    assert s[2..6] == ['2', '0', '2', HexDigit(n % 16)];
    assert Hex4(s[2..6]) == Some(n);
    assert s[6..] == tail;
  }

  /** One escaped character reads back as that character. */
  lemma ReadEscapedChar(c: char, tail: string)
    ensures ReadStringBody(EscapeChar(c) + tail) == Prepend(c, ReadStringBody(tail))
  {
    var n := c as int;
    if ShortEscaped(c) {
      ReadShortEscaped(c, tail);
    } else if n < 0x20 || c == '<' || c == '>' || c == '&' {
      ReadHexEscaped(c, tail);
    } else if n == 0x2028 || n == 0x2029 {
      ReadSeparatorEscaped(c, tail);
    } else {
      assert EscapeChar(c) == [c];
      assert (EscapeChar(c) + tail)[1..] == tail;
    }
  }

  /** Reading an escaped text followed by the closing quote gives the text back. */
  lemma {:induction false} ReadEscape(t: string, rest: string)
    ensures ReadStringBody(Escape(t) + "\"" + rest) == Some((t, rest))
    decreases |t|
  {
    if t == [] {
      assert (Escape(t) + "\"" + rest)[1..] == rest;
    } else {
      ReadEscape(t[1..], rest);
      assert Escape(t) + "\"" + rest == EscapeChar(t[0]) + (Escape(t[1..]) + "\"" + rest);
      ReadEscapedChar(t[0], Escape(t[1..]) + "\"" + rest);
      assert [t[0]] + t[1..] == t;
    }
  }

  /** ReadString is the left inverse of Quote. */
  lemma ReadQuote(t: string, rest: string)
    ensures ReadString(Quote(t) + rest) == Some((t, rest))
  {
    assert (Quote(t) + rest)[1..] == Escape(t) + "\"" + rest;
    ReadEscape(t, rest);
  }

  /** A character `json.Marshal` writes as it is. */
  predicate Plain(c: char)
  {
    c as int >= 0x20 && c != '"' && c != '\\' && c != '<' && c != '>' && c != '&'
    && c as int != 0x2028 && c as int != 0x2029
  }

  /** A text of plain characters is written unchanged, between quotes. */
  lemma {:induction false} QuotePlain(t: string)
    requires forall i | 0 <= i < |t| :: Plain(t[i])
    ensures Escape(t) == t && Quote(t) == "\"" + t + "\""
    decreases |t|
  {
    if t != [] {
      QuotePlain(t[1..]);
      assert [t[0]] + t[1..] == t;
    }
  }

  // ---------------------------------------------------------------------
  // numbers

  /** Number of leading decimal digits of `s`. */
  function DigitRun(s: string): (k: nat)
    ensures k <= |s| && AllDigits(s[..k])
    ensures k < |s| ==> !IsDigit(s[k])
    decreases |s|
  {
    if s != [] && IsDigit(s[0]) then
      var k := DigitRun(s[1..]) + 1;
      assert s[..k] == [s[0]] + s[1..][..k - 1];
      k
    else 0
  }

  /** Reads a JSON number without sign, fraction or exponent. */
  function ReadNat(s: string): Option<(nat, string)>
  {
    var k := DigitRun(s);
    if k == 0 || (k > 1 && s[0] == '0') then None
    else Some((DigitsValue(s[..k]), s[k..]))
  }

  lemma {:induction false} DigitRunOfDigits(d: string, rest: string)
    requires AllDigits(d)
    requires rest == [] || !IsDigit(rest[0])
    ensures DigitRun(d + rest) == |d|
    decreases |d|
  {
    if d != [] {
      assert (d + rest)[1..] == d[1..] + rest;
      DigitRunOfDigits(d[1..], rest);
      assert d + rest != [] && IsDigit((d + rest)[0]);
      assert DigitRun(d + rest) == DigitRun((d + rest)[1..]) + 1;
    } else {
      assert d + rest == rest;
    }
  }

  /** ReadNat takes back what %d writes, when no digit follows. */
  lemma ReadNatToString(n: nat, rest: string)
    requires rest == [] || !IsDigit(rest[0])
    ensures ReadNat(NatToString(n) + rest) == Some((n, rest))
  {
    var s := NatToString(n) + rest;
    DigitRunOfDigits(NatToString(n), rest);
    assert s[..|NatToString(n)|] == NatToString(n);
    assert s[|NatToString(n)|..] == rest;
    DigitsValueOfNatToString(n);
  }
}
