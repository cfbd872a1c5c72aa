/**
 * `JSON.stringify` applied to a string, as the extension uses it to quote the
 * case path and the test name on the terminal line, together with a reader
 * for JSON string literals (section 7 of RFC 8259) that undoes it.
 *
 * A Dafny `char` is a Unicode scalar value, so the lone surrogates that
 * `JSON.stringify` escapes as `\uXXXX` cannot occur here.
 */
module Json {
  import opened Wrappers

  const Quote: char := '"'
  const Backslash: char := '\\'
  const Backspace: char := '\U{8}'
  const FormFeed: char := '\U{C}'

  /** The lower-case hexadecimal digit for `n`. */
  function HexDigit(n: nat): char
    requires n < 16
  {
    "0123456789abcdef"[n]
  }

  /** The value of a hexadecimal digit of either case. */
  function HexValue(c: char): (r: Option<nat>)
    ensures r.Some? ==> r.value < 16
  {
    if '0' <= c <= '9' then Some(c as nat - '0' as nat)
    else if 'a' <= c <= 'f' then Some(c as nat - 'a' as nat + 10)
    else if 'A' <= c <= 'F' then Some(c as nat - 'A' as nat + 10)
    else None
  }

  /** The value of four hexadecimal digits. */
  function HexQuad(s: string): (r: Option<nat>)
    requires |s| == 4
    ensures r.Some? ==> r.value < 0x1_0000
  {
    match (HexValue(s[0]), HexValue(s[1]), HexValue(s[2]), HexValue(s[3]))
    case (Some(a), Some(b), Some(c), Some(d)) => Some(((a * 16 + b) * 16 + c) * 16 + d)
    case _ => None
  }

  /** How `JSON.stringify` writes one character inside a string literal. */
  function EscapeChar(c: char): (r: string)
    ensures |r| > 0
    ensures forall i :: 0 <= i < |r| ==> r[i] >= ' '
    ensures r[0] != Quote
    ensures r[0] == Backslash || r == [c]
  {
    if c == Quote then [Backslash, Quote]
    else if c == Backslash then [Backslash, Backslash]
    else if c == Backspace then [Backslash, 'b']
    else if c == '\t' then [Backslash, 't']
    else if c == '\n' then [Backslash, 'n']
    else if c == FormFeed then [Backslash, 'f']
    else if c == '\r' then [Backslash, 'r']
    else if c < ' ' then [Backslash, 'u', '0', '0', HexDigit(c as nat / 16), HexDigit(c as nat % 16)]
    else [c]
  }

  /** The inside of the literal: every character escaped in turn. */
  function EscapeBody(s: string): (r: string)
    ensures |r| >= |s|
    ensures forall i :: 0 <= i < |r| ==> r[i] >= ' '
  {
    if |s| == 0 then ""
    else
      var head := EscapeChar(s[0]);
      var tail := EscapeBody(s[1..]);
      assert forall i :: |head| <= i < |head| + |tail| ==> (head + tail)[i] == tail[i - |head|];
      head + tail
  }

  /** The character an escape sequence stands for, and how many characters follow the backslash. */
  function ReadEscape(s: string): (r: Option<(char, nat)>)
    ensures r.Some? ==> 1 <= r.value.1 <= |s|
  {
    if |s| == 0 then None
    else if s[0] == Quote then Some((Quote, 1))
    else if s[0] == Backslash then Some((Backslash, 1))
    else if s[0] == '/' then Some(('/', 1))
    else if s[0] == 'b' then Some((Backspace, 1))
    else if s[0] == 't' then Some(('\t', 1))
    else if s[0] == 'n' then Some(('\n', 1))
    else if s[0] == 'f' then Some((FormFeed, 1))
    else if s[0] == 'r' then Some(('\r', 1))
    else if s[0] == 'u' && |s| >= 5 then
      match HexQuad(s[1..5])
      case Some(v) =>
        if v < 0xD800 || 0xDFFF < v then Some((v as char, 5)) else None
      case None => None
    else None
  }

  /**
   * Reads the rest of a string literal whose opening quote is already
   * consumed: the decoded characters up to the closing quote, and the text
   * after it. A raw control character or a bad escape is an error.
   */
  function ReadString(s: string): (r: Option<(string, string)>)
    ensures r.Some? ==> |r.value.1| < |s|
    decreases |s|
  {
    if |s| == 0 then None
    else if s[0] == Quote then Some(("", s[1..]))
    else if s[0] < ' ' then None
    else if s[0] == Backslash then
      match ReadEscape(s[1..])
      case None => None
      case Some((c, n)) =>
        match ReadString(s[1 + n..])
        case None => None
        case Some((d, rest)) => Some(([c] + d, rest))
    else
      match ReadString(s[1..])
      case None => None
      case Some((d, rest)) => Some(([s[0]] + d, rest))
  }

  /** Reads a whole string literal; anything after its closing quote is an error. */
  function Unquote(q: string): Option<string>
  {
    if |q| > 0 && q[0] == Quote then
      match ReadString(q[1..])
      case Some((d, rest)) => if rest == "" then Some(d) else None
      case None => None
    else None
  }

  /** Reading one escaped character yields that character. */
  lemma ReadEscapeChar(c: char, tail: string, d: string, rest: string)
    requires ReadString(tail) == Some((d, rest))
    ensures ReadString(EscapeChar(c) + tail) == Some(([c] + d, rest))
  {
    var e := EscapeChar(c);
    if e[0] == Backslash {
      EscapeSequence(c, tail);
      ReadBackslash(e[1..], tail, c, d, rest);
      assert e == [Backslash] + e[1..];
    } else {
      var s := e + tail;
      assert s[0] == c && s[1..] == tail;
    }
  }

  /** The escape sequence after the backslash reads back as the escaped character. */
  lemma EscapeSequence(c: char, tail: string)
    requires EscapeChar(c)[0] == Backslash
    ensures ReadEscape(EscapeChar(c)[1..] + tail) == Some((c, |EscapeChar(c)| - 1))
  {
    var e := EscapeChar(c);
    if |e| == 6 {
      UnicodeEscape(c, tail);
    } else {
      assert (e[1..] + tail)[0] == e[1];
    }
  }

  /** A `\u00XX` escape reads back as the control character it encodes. */
  lemma UnicodeEscape(c: char, tail: string)
    requires c < ' '
    ensures var u := ['u', '0', '0', HexDigit(c as nat / 16), HexDigit(c as nat % 16)];
      ReadEscape(u + tail) == Some((c, 5))
  {
    var hi := c as nat / 16;
    var lo := c as nat % 16;
    var u := ['u', '0', '0', HexDigit(hi), HexDigit(lo)];
    var s := u + tail;
    assert s[1..5] == ['0', '0', HexDigit(hi), HexDigit(lo)];
    assert HexValue(HexDigit(hi)) == Some(hi);
    assert HexValue(HexDigit(lo)) == Some(lo);
    assert HexQuad(s[1..5]) == Some(c as nat);
  }

  /** A backslash followed by an escape sequence contributes the escaped character. */
  lemma ReadBackslash(esc: string, tail: string, c: char, d: string, rest: string)
    requires ReadEscape(esc + tail) == Some((c, |esc|))
    requires ReadString(tail) == Some((d, rest))
    ensures ReadString([Backslash] + esc + tail) == Some(([c] + d, rest))
  {
    var s := [Backslash] + esc + tail;
    assert s[1..] == esc + tail;
    assert s[1 + |esc|..] == tail;
  }

  /** Reading an escaped body followed by a closing quote recovers the original string. */
  lemma {:induction false} ReadStringEscaped(s: string, rest: string)
    ensures ReadString(EscapeBody(s) + [Quote] + rest) == Some((s, rest))
    decreases |s|
  {
    if |s| == 0 {
      assert EscapeBody(s) + [Quote] + rest == [Quote] + rest;
      assert ([Quote] + rest)[1..] == rest;
    } else {
      var head := EscapeChar(s[0]);
      var body := EscapeBody(s[1..]);
      var tail := body + [Quote] + rest;
      assert EscapeBody(s) == head + body;
      assert head + body + [Quote] + rest == head + tail;
      ReadStringEscaped(s[1..], rest);
      ReadEscapeChar(s[0], tail, s[1..], rest);
      assert [s[0]] + s[1..] == s;
    }
  }

  /** `JSON.stringify(s)` for a string `s`. */
  function Stringify(s: string): (r: string)
    ensures |r| >= |s| + 2
    ensures r[0] == Quote && r[|r| - 1] == Quote
    ensures forall i :: 0 <= i < |r| ==> r[i] >= ' '
    ensures Unquote(r) == Some(s)
  {
    var r := [Quote] + EscapeBody(s) + [Quote];
    ReadStringEscaped(s, "");
    assert r[1..] == EscapeBody(s) + [Quote] + "";
    r
  }
}
