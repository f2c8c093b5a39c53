/**
 * `JSON.stringify` applied to a string (QuoteJSONString, section 25.5.2.3 of
 * ECMA-262): the coach handler wraps its system prompt in it.  The decoder
 * below reads back the escapes `JSON.stringify` emits (it rejects surrogate
 * `\u` escapes, which are valid JSON but never emitted for a Dafny string); it
 * is the reference against which the quoting is shown to lose nothing.
 */
module JsonString {
  import opened Wrappers

  /** Lower-case hexadecimal digit of a value below 16. */
  function HexDigit(n: nat): (c: char)
    requires n < 16
    ensures HexValue(c) == Some(n)
  {
    if n < 10 then ('0' as int + n) as char else ('a' as int + n - 10) as char
  }

  /** The value of a hexadecimal digit in either case, or None for any other character. */
  function HexValue(c: char): (r: Option<nat>)
    ensures r.Some? ==> r.value < 16
  {
    if '0' <= c <= '9' then Some(c as int - '0' as int)
    else if 'a' <= c <= 'f' then Some(c as int - 'a' as int + 10)
    else if 'A' <= c <= 'F' then Some(c as int - 'A' as int + 10)
    else None
  }

  /** The escape of one code point: the two-character forms, `\u00XX` for other controls, or itself. */
  function EscapeChar(c: char): (e: string)
    ensures forall i :: 0 <= i < |e| ==> e[i] as int >= 0x20
    ensures forall i :: 0 <= i < |e| && e[i] == '"' ==> i > 0 && e[i - 1] == '\\'
  {
    var n := c as int;
    if c == '"' then "\\\""
    else if c == '\\' then "\\\\"
    else if n == 0x08 then "\\b"
    else if n == 0x09 then "\\t"
    else if n == 0x0A then "\\n"
    else if n == 0x0C then "\\f"
    else if n == 0x0D then "\\r"
    else if n < 0x20 then "\\u00" + [HexDigit(n / 16), HexDigit(n % 16)]
    else [c]
  }

  /** The escaped text between the quotes: no raw control character and no bare quote survives. */
  function Escape(s: string): (e: string)
    ensures forall i :: 0 <= i < |e| ==> e[i] as int >= 0x20
    ensures forall i :: 0 <= i < |e| && e[i] == '"' ==> i > 0 && e[i - 1] == '\\'
  {
    if s == [] then [] else EscapeChar(s[0]) + Escape(s[1..])
  }

  /** `JSON.stringify(s)` for a string `s`. */
  function Quote(s: string): (q: string)
    ensures |q| >= 2 && q[0] == '"' && q[|q| - 1] == '"'
    ensures forall i :: 0 <= i < |q| ==> q[i] as int >= 0x20
  {
    "\"" + Escape(s) + "\""
  }

  /** The code point written by four hexadecimal digits, if they are digits and name one. */
  function HexCodePoint(a: char, b: char, c: char, d: char): Option<char> {
    match (HexValue(a), HexValue(b), HexValue(c), HexValue(d))
    case (Some(w), Some(x), Some(y), Some(z)) =>
      var n := 4096 * w + 256 * x + 16 * y + z;
      if n < 0xD800 || 0xE000 <= n then Some(n as char) else None
    case _ => None
  }

  /** Prepend a decoded character to a decoded rest, propagating failure. */
  function Cons(c: char, rest: Option<string>): Option<string> {
    match rest
    case Some(t) => Some([c] + t)
    case None => None
  }

  /** The characters denoted by the body of a JSON string, or None when it is malformed. */
  function Unescape(e: string): Option<string>
    decreases |e|
  {
    if e == [] then Some([])
    else if e[0] == '\\' then
      if |e| < 2 then None
      else if e[1] == '"' then Cons('"', Unescape(e[2..]))
      else if e[1] == '\\' then Cons('\\', Unescape(e[2..]))
      else if e[1] == '/' then Cons('/', Unescape(e[2..]))
      else if e[1] == 'b' then Cons(8 as char, Unescape(e[2..]))
      else if e[1] == 'f' then Cons(12 as char, Unescape(e[2..]))
      else if e[1] == 'n' then Cons('\n', Unescape(e[2..]))
      else if e[1] == 'r' then Cons('\r', Unescape(e[2..]))
      else if e[1] == 't' then Cons('\t', Unescape(e[2..]))
      else if e[1] == 'u' && |e| >= 6 then
        match HexCodePoint(e[2], e[3], e[4], e[5])
        case Some(c) => Cons(c, Unescape(e[6..]))
        case None => None
      else None
    else if e[0] == '"' || (e[0] as int) < 0x20 then None
    else Cons(e[0], Unescape(e[1..]))
  }

  /** Read a JSON string literal back. */
  function Unquote(q: string): Option<string> {
    if |q| >= 2 && q[0] == '"' && q[|q| - 1] == '"' then Unescape(q[1..|q| - 1]) else None
  }

  /** Decoding an escaped code point followed by anything reads the code point, then the rest. */
  lemma UnescapeChar(c: char, rest: string)
    ensures Unescape(EscapeChar(c) + rest) == Cons(c, Unescape(rest))
  {
    var e := EscapeChar(c) + rest;
    var n := c as int;
    if c == '"' || c == '\\' || n == 0x08 || n == 0x09 || n == 0x0A || n == 0x0C || n == 0x0D {
      UnescapeShort(c, rest);
    } else if n < 0x20 {
      UnescapeControl(c, rest);
    } else {
      assert e[1..] == rest;
    }
  }

  /** A character with a two-character escape is read back from it. */
  lemma UnescapeShort(c: char, rest: string)
    requires c == '"' || c == '\\' || c as int in {0x08, 0x09, 0x0A, 0x0C, 0x0D}
    ensures Unescape(EscapeChar(c) + rest) == Cons(c, Unescape(rest))
  {
    var e := EscapeChar(c) + rest;
    assert |EscapeChar(c)| == 2 && e[0] == '\\';
    assert e[2..] == rest;
  }

  /** A control character without a two-character escape is read back from its `\u00XX` form. */
  lemma UnescapeControl(c: char, rest: string)
    requires c as int < 0x20 && c as int !in {0x08, 0x09, 0x0A, 0x0C, 0x0D}
    ensures Unescape(EscapeChar(c) + rest) == Cons(c, Unescape(rest))
  {
    var n := c as int;
    var e := EscapeChar(c) + rest;
    assert e[..6] == "\\u00" + [HexDigit(n / 16), HexDigit(n % 16)];
    assert e[6..] == rest;
    assert HexValue(e[2]) == Some(0) && HexValue(e[3]) == Some(0);
    assert HexValue(e[4]) == Some(n / 16) && HexValue(e[5]) == Some(n % 16);
    assert HexCodePoint(e[2], e[3], e[4], e[5]) == Some(c);
  }

  /** Quoting loses nothing: the decoder gives back exactly the string that was quoted. */
  lemma {:induction false} UnescapeEscape(s: string)
    ensures Unescape(Escape(s)) == Some(s)
  {
    if s != [] {
      UnescapeEscape(s[1..]);
      UnescapeChar(s[0], Escape(s[1..]));
      assert [s[0]] + s[1..] == s;
    }
  }

  /** `JSON.parse(JSON.stringify(s)) == s` for every string `s`. */
  lemma QuoteRoundTrip(s: string)
    ensures Unquote(Quote(s)) == Some(s)
  {
    var q := Quote(s);
    assert q[1..|q| - 1] == Escape(s);
    UnescapeEscape(s);
  }
}
