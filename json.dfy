/**
 * `JSON.stringify` applied to a string: the string literal that ECMA-262's
 * QuoteJSONString produces, and, as its partner, a decoder for string
 * literals as section 7 of RFC 8259 defines them.
 *
 * A Dafny `char` is a Unicode scalar value, so the lone surrogates that
 * QuoteJSONString writes as `\uXXXX` cannot occur in the input.
 */
module Json {
  import opened Wrappers

  /** The lower-case hexadecimal digit for `d`. */
  function HexDigit(d: nat): (c: char)
    requires d < 16
    ensures HexValue(c) == Some(d)
    ensures '0' <= c <= '9' || 'a' <= c <= 'f'
  {
    if d < 10 then ('0' as int + d) as char else ('a' as int + d - 10) as char
  }

  /** The value of a hexadecimal digit of either case. */
  function HexValue(c: char): (r: Option<nat>)
    ensures r.Some? ==> r.value < 16
  {
    if '0' <= c <= '9' then Some(c as int - '0' as int)
    else if 'a' <= c <= 'f' then Some(c as int - 'a' as int + 10)
    else if 'A' <= c <= 'F' then Some(c as int - 'A' as int + 10)
    else None
  }

  /** The value of four hexadecimal digits. */
  function HexQuad(h: string): (r: Option<nat>)
    requires |h| == 4
    ensures r.Some? ==> r.value < 0x10000
  {
    match (HexValue(h[0]), HexValue(h[1]), HexValue(h[2]), HexValue(h[3]))
    case (Some(a), Some(b), Some(c), Some(d)) => Some(((a * 16 + b) * 16 + c) * 16 + d)
    case _ => None
  }

  /** The characters QuoteJSONString writes for one character of its input. */
  function EscapeChar(c: char): (e: string)
    ensures 1 <= |e| <= 6
  {
    if c == '"' then "\\\""
    else if c == '\\' then "\\\\"
    else if c as int == 0x08 then "\\b"
    else if c as int == 0x0C then "\\f"
    else if c == '\n' then "\\n"
    else if c == '\r' then "\\r"
    else if c == '\t' then "\\t"
    else if c < ' ' then ['\\', 'u', '0', '0', HexDigit(c as int / 16), HexDigit(c as int % 16)]
    else [c]
  }

  function EscapeAll(s: string): (e: string)
    ensures |s| <= |e| <= 6 * |s|
  {
    if s == [] then [] else EscapeChar(s[0]) + EscapeAll(s[1..])
  }

  /**
   * `JSON.stringify(s)` (and `JSON.stringify(s, null, 4)`: indentation has no
   * effect on a string): the escaped content between two quotation marks.
   */
  function Quote(s: string): (r: string)
    ensures |s| + 2 <= |r| <= 6 * |s| + 2
    ensures r[0] == '"' && r[|r| - 1] == '"'
  {
    "\"" + EscapeAll(s) + "\""
  }

  /** The character an escape sequence stands for (`t` follows the backslash) and how many characters it uses. */
  function DecodeEscape(t: string): (r: Option<(char, nat)>)
    ensures r.Some? ==> 1 <= r.value.1 <= |t|
  {
    if t == [] then None
    else if t[0] == '"' then Some(('"', 1))
    else if t[0] == '\\' then Some(('\\', 1))
    else if t[0] == '/' then Some(('/', 1))
    else if t[0] == 'b' then Some((0x08 as char, 1))
    else if t[0] == 'f' then Some((0x0C as char, 1))
    else if t[0] == 'n' then Some(('\n', 1))
    else if t[0] == 'r' then Some(('\r', 1))
    else if t[0] == 't' then Some(('\t', 1))
    else if t[0] == 'u' && |t| >= 5 then
      match HexQuad(t[1..5])
      case Some(v) => if 0xD800 <= v < 0xE000 then None else Some((v as char, 5))
      case None => None
    else None
  }

  function Prepend(c: char, r: Option<string>): Option<string> {
    match r
    case Some(s) => Some([c] + s)
    case None => None
  }

  /**
   * The characters that the body of a string literal stands for; `None` if it
   * holds an unescaped quotation mark or control character or a bad escape.
   */
  function DecodeBody(t: string): Option<string>
    decreases |t|
  {
    if t == [] then Some([])
    else if t[0] == '\\' then
      match DecodeEscape(t[1..])
      case Some((c, n)) => Prepend(c, DecodeBody(t[1 + n..]))
      case None => None
    else if t[0] == '"' || t[0] < ' ' then None
    else Prepend(t[0], DecodeBody(t[1..]))
  }

  /** The string a JSON string literal denotes, if `q` is one. */
  function Unquote(q: string): Option<string> {
    if |q| >= 2 && q[0] == '"' && q[|q| - 1] == '"' then DecodeBody(q[1..|q| - 1]) else None
  }

  lemma DecodeEscapeChar(c: char, rest: string)
    ensures DecodeBody(EscapeChar(c) + rest) == Prepend(c, DecodeBody(rest))
  {
    var t := EscapeChar(c) + rest;
    if c < ' ' && c != '\n' && c != '\r' && c != '\t' && c as int != 0x08 && c as int != 0x0C {
      var hi, lo := c as int / 16, c as int % 16;
      assert t[1..][1..5] == ['0', '0', HexDigit(hi), HexDigit(lo)];
      assert HexQuad(t[1..][1..5]) == Some(c as int);
      assert t[1 + 5..] == rest;
    } else if c == '"' || c == '\\' || c as int == 0x08 || c as int == 0x0C || c == '\n' || c == '\r' || c == '\t' {
      assert t[1..][0] == EscapeChar(c)[1];
      assert t[1 + 1..] == rest;
    } else {
      assert t[1..] == rest;
    }
  }

  lemma {:induction false} DecodeEscapeAll(s: string)
    ensures DecodeBody(EscapeAll(s)) == Some(s)
  {
    if s != [] {
      DecodeEscapeChar(s[0], EscapeAll(s[1..]));
      DecodeEscapeAll(s[1..]);
      assert [s[0]] + s[1..] == s;
    }
  }

  /** Decoding a quoted string gives back the original string. */
  lemma UnquoteQuote(s: string)
    ensures Unquote(Quote(s)) == Some(s)
  {
    var q := Quote(s);
    assert q[1..|q| - 1] == EscapeAll(s);
    DecodeEscapeAll(s);
  }

  /** Distinct strings are quoted differently. */
  lemma QuoteInjective(s: string, t: string)
    requires Quote(s) == Quote(t)
    ensures s == t
  {
    UnquoteQuote(s);
    UnquoteQuote(t);
  }

  /** Characters QuoteJSONString copies as they are. */
  predicate Plain(c: char) {
    c >= ' ' && c != '"' && c != '\\'
  }

  /** Text of plain characters is quoted by adding the two quotation marks and nothing else. */
  lemma {:induction false} QuotePlain(s: string)
    requires forall i :: 0 <= i < |s| ==> Plain(s[i])
    ensures Quote(s) == "\"" + s + "\""
  {
    EscapePlain(s);
  }

  lemma {:induction false} EscapePlain(s: string)
    requires forall i :: 0 <= i < |s| ==> Plain(s[i])
    ensures EscapeAll(s) == s
  {
    if s != [] {
      EscapePlain(s[1..]);
      assert [s[0]] + s[1..] == s;
    }
  }

  lemma {:induction false} EscapeAllPrintable(s: string)
    ensures forall i :: 0 <= i < |EscapeAll(s)| ==> EscapeAll(s)[i] >= ' '
  {
    if s != [] {
      EscapeAllPrintable(s[1..]);
      var e := EscapeChar(s[0]);
      assert forall i :: 0 <= i < |e| ==> e[i] >= ' ';
    }
  }

  /** A quoted string holds no character below U+0020: newlines, tabs and the like are visible escapes. */
  lemma QuotePrintable(s: string)
    ensures |Quote(s)| >= 2 && Quote(s)[0] == '"' && Quote(s)[|Quote(s)| - 1] == '"'
    ensures forall i :: 0 <= i < |Quote(s)| ==> Quote(s)[i] >= ' '
  {
    EscapeAllPrintable(s);
  }
}
