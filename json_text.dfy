/**
  * JSON string literals as Python's `json.dumps` writes them with its default
  * `ensure_ascii=True` (backslash escapes for `"` and `\`, the short escapes
  * for backspace, form feed, newline, carriage return and tab, `\u` followed by
  * four lower-case hex digits for every other character outside the printable
  * ASCII range, and a surrogate pair above U+FFFF), together with a reader in
  * the manner of `json.loads` that recovers the text.
  */
module JsonText {
  import opened Wrappers

  /** Printable ASCII, the only characters `json.dumps` emits inside a string literal. */
  predicate Printable(c: char) {
    ' ' <= c <= '~'
  }

  predicate AllPrintable(s: string) {
    forall i :: 0 <= i < |s| ==> Printable(s[i])
  }

  // ---------------------------------------------------------------------------
  // Hex digits

  /** The lower-case hex digit for `d`. */
  function HexDigit(d: nat): (c: char)
    requires d < 16
    ensures Printable(c)
  {
    if d < 10 then ('0' as int + d) as char else ('a' as int + d - 10) as char
  }

  /** The value of a hex digit of either case. */
  function DigitValue(c: char): (r: Option<nat>)
    ensures r.Some? ==> r.value < 16
  {
    if '0' <= c <= '9' then Some(c as int - '0' as int)
    else if 'a' <= c <= 'f' then Some(c as int - 'a' as int + 10)
    else if 'A' <= c <= 'F' then Some(c as int - 'A' as int + 10)
    else None
  }

  lemma DigitRoundTrip(d: nat)
    requires d < 16
    ensures DigitValue(HexDigit(d)) == Some(d)
  {
  }

  /** `'{0:04x}'.format(n)`. */
  function Hex4(n: nat): (r: string)
    requires n < 0x10000
    ensures |r| == 4 && AllPrintable(r)
  {
    [HexDigit(n / 0x1000), HexDigit(n / 0x100 % 0x10), HexDigit(n / 0x10 % 0x10), HexDigit(n % 0x10)]
  }

  /** The four hex digits of `n` denote `n`. */
  lemma HexPlaces(n: nat)
    requires n < 0x10000
    ensures n == n / 0x1000 * 0x1000 + n / 0x100 % 0x10 * 0x100 + n / 0x10 % 0x10 * 0x10 + n % 0x10
  {
    var q1 := n / 0x10;
    var q2 := q1 / 0x10;
    var q3 := q2 / 0x10;
    assert n == q1 * 0x10 + n % 0x10;
    assert q1 == q2 * 0x10 + q1 % 0x10;
    assert q2 == q3 * 0x10 + q2 % 0x10;
    assert n / 0x100 == q2 && n / 0x1000 == q3;
  }

  /** The number four hex digits at the start of `t` denote. */
  function ReadHex4(t: string): (r: Option<nat>)
    ensures r.Some? ==> |t| >= 4 && r.value < 0x10000
  {
    if |t| < 4 then None
    else
      var a :- DigitValue(t[0]);
      var b :- DigitValue(t[1]);
      var c :- DigitValue(t[2]);
      var d :- DigitValue(t[3]);
      Some(a * 0x1000 + b * 0x100 + c * 0x10 + d)
  }

  lemma {:induction false} Hex4RoundTrip(n: nat, rest: string)
    requires n < 0x10000
    ensures ReadHex4(Hex4(n) + rest) == Some(n)
  {
    var t := Hex4(n) + rest;
    HexPlaces(n);
    DigitRoundTrip(n / 0x1000);
    DigitRoundTrip(n / 0x100 % 0x10);
    DigitRoundTrip(n / 0x10 % 0x10);
    DigitRoundTrip(n % 0x10);
    assert t[0] == HexDigit(n / 0x1000) && t[1] == HexDigit(n / 0x100 % 0x10);
    assert t[2] == HexDigit(n / 0x10 % 0x10) && t[3] == HexDigit(n % 0x10);
  }

  // ---------------------------------------------------------------------------
  // Writing

  const Backspace: char := '\U{0008}'
  const FormFeed: char := '\U{000C}'

  /** The surrogate pair UTF-16 uses for a code point above U+FFFF. */
  function HighSurrogate(c: char): nat
    requires c as int >= 0x10000
  {
    0xD800 + (c as int - 0x10000) / 0x400
  }

  function LowSurrogate(c: char): nat
    requires c as int >= 0x10000
  {
    0xDC00 + (c as int - 0x10000) % 0x400
  }

  /** How `json.dumps` writes one character inside a string literal. */
  function EscapeChar(c: char): (r: string)
    ensures 1 <= |r| && AllPrintable(r)
    ensures r[0] == '\\' <==> !Printable(c) || c == '"' || c == '\\'
    ensures r[0] != '"'
  {
    if c == '"' then "\\\""
    else if c == '\\' then "\\\\"
    else if c == '\n' then "\\n"
    else if c == '\r' then "\\r"
    else if c == '\t' then "\\t"
    else if c == Backspace then "\\b"
    else if c == FormFeed then "\\f"
    else if Printable(c) then [c]
    else if c as int < 0x10000 then "\\u" + Hex4(c as int)
    else "\\u" + Hex4(HighSurrogate(c)) + "\\u" + Hex4(LowSurrogate(c))
  }

  /** The body of the string literal `json.dumps` writes for `s`. */
  function Escape(s: string): (r: string)
    ensures AllPrintable(r)
  {
    if s == [] then []
    else
      var head, tail := EscapeChar(s[0]), Escape(s[1..]);
      var r := head + tail;
      assert forall i :: 0 <= i < |head| ==> r[i] == head[i];
      assert forall i :: |head| <= i < |r| ==> r[i] == tail[i - |head|];
      r
  }

  /** The whole string literal, quotes included. */
  function Quote(s: string): (r: string)
    ensures AllPrintable(r) && |r| >= 2 && r[0] == '"' && r[|r| - 1] == '"'
  {
    "\"" + Escape(s) + "\""
  }

  // ---------------------------------------------------------------------------
  // Reading

  /** A code point as a Dafny character, if it is one (surrogates are not). */
  function CharOf(n: nat): Option<char> {
    if n < 0xD800 || 0xE000 <= n < 0x110000 then Some(n as char) else None
  }

  /** `\uXXXX` at the start of `t`, or a surrogate pair `\uXXXX\uYYYY`: the character and the length read. */
  function ReadUnicode(t: string): (r: Option<(char, nat)>)
    ensures r.Some? ==> 6 <= r.value.1 <= |t|
  {
    if |t| < 6 || t[..2] != "\\u" then None
    else
      var n :- ReadHex4(t[2..]);
      if 0xD800 <= n < 0xDC00 then
        if |t| < 12 || t[6..8] != "\\u" then None
        else
          var m :- ReadHex4(t[8..]);
          if 0xDC00 <= m < 0xE000 then
            var c :- CharOf(0x10000 + (n - 0xD800) * 0x400 + (m - 0xDC00));
            Some((c, 12))
          else None
      else
        var c :- CharOf(n);
        Some((c, 6))
  }

  /** A backslash escape at the start of `t`: the character it stands for and the length read. */
  function ReadEscape(t: string): (r: Option<(char, nat)>)
    ensures r.Some? ==> 2 <= r.value.1 <= |t|
  {
    if |t| < 2 || t[0] != '\\' then None
    else if t[1] == '"' then Some(('"', 2))
    else if t[1] == '\\' then Some(('\\', 2))
    else if t[1] == '/' then Some(('/', 2))
    else if t[1] == 'b' then Some((Backspace, 2))
    else if t[1] == 'f' then Some((FormFeed, 2))
    else if t[1] == 'n' then Some(('\n', 2))
    else if t[1] == 'r' then Some(('\r', 2))
    else if t[1] == 't' then Some(('\t', 2))
    else if t[1] == 'u' then ReadUnicode(t)
    else None
  }

  function Prepend(c: char, r: Option<(string, string)>): Option<(string, string)> {
    match r
    case None => None
    case Some(p) => Some(([c] + p.0, p.1))
  }

  /**
    * The body of a string literal up to and including its closing quote: the
    * text it denotes and what follows the quote.  Raw control characters are
    * refused, as the strict reader does.
    */
  function ReadString(t: string): (r: Option<(string, string)>)
    ensures r.Some? ==> |r.value.1| < |t|
    decreases |t|
  {
    if t == [] then None
    else if t[0] == '"' then Some(([], t[1..]))
    else if t[0] == '\\' then
      match ReadEscape(t)
      case None => None
      case Some(e) => Prepend(e.0, ReadString(t[e.1..]))
    else if t[0] < ' ' then None
    else Prepend(t[0], ReadString(t[1..]))
  }

  /** A string literal at the start of `t`: its text and what follows it. */
  function ReadQuoted(t: string): (r: Option<(string, string)>)
    ensures r.Some? ==> |r.value.1| < |t|
  {
    if t == [] || t[0] != '"' then None else ReadString(t[1..])
  }

  // ---------------------------------------------------------------------------
  // Round trip

  /** Reading a surrogate pair written for `c` gives `c` back. */
  lemma {:induction false} SurrogatePairRoundTrip(c: char)
    requires c as int >= 0x10000
    ensures 0xD800 <= HighSurrogate(c) < 0xDC00 && 0xDC00 <= LowSurrogate(c) < 0xE000
    ensures CharOf(0x10000 + (HighSurrogate(c) - 0xD800) * 0x400 + (LowSurrogate(c) - 0xDC00)) == Some(c)
  {
    var n := c as int - 0x10000;
    assert n == n / 0x400 * 0x400 + n % 0x400;
  }

  /** The two `\\u` escapes of a surrogate pair are read as the one character they encode. */
  lemma SurrogateEscapeRead(c: char, u: string)
    requires c as int >= 0x10000
    ensures ReadUnicode("\\u" + Hex4(HighSurrogate(c)) + "\\u" + Hex4(LowSurrogate(c)) + u) == Some((c, 12))
  {
    var hi, lo := HighSurrogate(c), LowSurrogate(c);
    var rest := "\\u" + Hex4(lo) + u;
    var t := "\\u" + Hex4(hi) + rest;
    assert t == "\\u" + Hex4(hi) + "\\u" + Hex4(lo) + u;
    SurrogatePairRoundTrip(c);
    UnicodeEscapeAt(hi, rest);
    UnicodeEscapeAt(lo, u);
    assert t[6..] == rest;
    assert t[6..8] == rest[..2] && t[8..] == rest[2..];
  }

  /** `\\u` and four hex digits at the start of a text: the digits read back as `n`, followed by the rest. */
  lemma UnicodeEscapeAt(n: nat, rest: string)
    requires n < 0x10000
    ensures var t := "\\u" + Hex4(n) + rest;
            |t| == 6 + |rest| && t[..2] == "\\u" && ReadHex4(t[2..]) == Some(n) && t[6..] == rest
  {
    var t := "\\u" + Hex4(n) + rest;
    assert t[2..] == Hex4(n) + rest;
    Hex4RoundTrip(n, rest);
  }

  /** The characters `json.dumps` writes with a two-character escape. */
  predicate ShortEscaped(c: char) {
    c == '"' || c == '\\' || c == '\n' || c == '\r' || c == '\t' || c == Backspace || c == FormFeed
  }

  /** A two-character escape is read back as its character. */
  lemma ShortEscapeRoundTrip(c: char, u: string)
    requires ShortEscaped(c)
    ensures ReadString(EscapeChar(c) + u) == Prepend(c, ReadString(u))
  {
    var t := EscapeChar(c) + u;
    assert |EscapeChar(c)| == 2 && t[0] == '\\';
    assert ReadEscape(t) == Some((c, 2));
    assert t[2..] == u;
  }

  /** A `\\uXXXX` escape of a character below U+10000 is read back as that character. */
  lemma UnicodeEscapeRoundTrip(c: char, u: string)
    requires !Printable(c) && !ShortEscaped(c) && c as int < 0x10000
    ensures ReadString(EscapeChar(c) + u) == Prepend(c, ReadString(u))
  {
    var t := EscapeChar(c) + u;
    assert t == "\\u" + Hex4(c as int) + u;
    assert t[2..] == Hex4(c as int) + u;
    Hex4RoundTrip(c as int, u);
    assert ReadEscape(t) == Some((c, 6));
    assert t[6..] == u;
  }

  /** A surrogate pair escape is read back as the character above U+FFFF it encodes. */
  lemma SurrogateEscapeRoundTrip(c: char, u: string)
    requires c as int >= 0x10000
    ensures ReadString(EscapeChar(c) + u) == Prepend(c, ReadString(u))
  {
    var t := EscapeChar(c) + u;
    assert t == "\\u" + Hex4(HighSurrogate(c)) + "\\u" + Hex4(LowSurrogate(c)) + u;
    SurrogateEscapeRead(c, u);
    assert ReadEscape(t) == Some((c, 12));
    assert t[12..] == u;
  }

  /** Each written character is read back, whatever follows it. */
  lemma EscapeCharRoundTrip(c: char, u: string)
    ensures ReadString(EscapeChar(c) + u) == Prepend(c, ReadString(u))
  {
    if ShortEscaped(c) {
      ShortEscapeRoundTrip(c, u);
    } else if Printable(c) {
      assert (EscapeChar(c) + u)[1..] == u;
    } else if c as int < 0x10000 {
      UnicodeEscapeRoundTrip(c, u);
    } else {
      SurrogateEscapeRoundTrip(c, u);
    }
  }

  /** Reading back what `json.dumps` writes for `s` gives `s` and leaves what follows the literal. */
  lemma {:induction false} EscapeRoundTrip(s: string, rest: string)
    ensures ReadString(Escape(s) + "\"" + rest) == Some((s, rest))
    decreases |s|
  {
    if s == [] {
      assert Escape(s) + "\"" + rest == "\"" + rest;
    } else {
      assert Escape(s) + "\"" + rest == EscapeChar(s[0]) + (Escape(s[1..]) + "\"" + rest);
      EscapeCharRoundTrip(s[0], Escape(s[1..]) + "\"" + rest);
      EscapeRoundTrip(s[1..], rest);
      assert [s[0]] + s[1..] == s;
    }
  }

  lemma QuoteRoundTrip(s: string, rest: string)
    ensures ReadQuoted(Quote(s) + rest) == Some((s, rest))
  {
    assert (Quote(s) + rest)[1..] == Escape(s) + "\"" + rest;
    EscapeRoundTrip(s, rest);
  }
}
